/** The audio-processing loop of the recorder (`AudioRecorder._process_audio_data`):
    frames taken from the capture queue are buffered and handed on as one
    joined byte string whenever the phrase time limit has passed since the
    last hand-off or the buffer has reached its frame ceiling. A hand-off is
    only considered when a frame arrives; a queue timeout changes nothing. */
module Aggregator {
  import opened Wrappers

  /** One chunk of 16-bit mono PCM as delivered by the audio driver. */
  type Frame = seq<bv8>

  /** `Config.PHRASE_TIME_LIMIT` (5 seconds) on the millisecond clock. */
  const PhraseTimeLimitMs: int := 5000
  /** The frame ceiling of the buffer ("about one second"). */
  const MaxBufferedFrames: nat := 50
  /** Prefix of the message reported when handling a queue item raises. */
  const ProcessingErrorPrefix: string := "音声処理エラー: "

  /** `b''.join(chunks)` */
  function Join(chunks: seq<seq<bv8>>): seq<bv8> {
    if chunks == [] then [] else Join(chunks[..|chunks| - 1]) + chunks[|chunks| - 1]
  }

  lemma {:induction false} JoinAppend(a: seq<seq<bv8>>, b: seq<seq<bv8>>)
    ensures Join(a + b) == Join(a) + Join(b)
    decreases |b|
  {
    if b == [] {
      assert a + b == a;
    } else {
      var ab := a + b;
      assert ab[..|ab| - 1] == a + b[..|b| - 1];
      assert ab[|ab| - 1] == b[|b| - 1];
      JoinAppend(a, b[..|b| - 1]);
    }
  }

  /** The frames of several buffers, one buffer after the other. */
  function Flatten(groups: seq<seq<Frame>>): seq<Frame> {
    if groups == [] then [] else Flatten(groups[..|groups| - 1]) + groups[|groups| - 1]
  }

  /** Each buffer joined into one byte string. */
  function JoinEach(groups: seq<seq<Frame>>): (r: seq<seq<bv8>>)
    ensures |r| == |groups|
    ensures forall i :: 0 <= i < |groups| ==> r[i] == Join(groups[i])
  {
    if groups == [] then [] else JoinEach(groups[..|groups| - 1]) + [Join(groups[|groups| - 1])]
  }

  /** Joining each buffer and then the results gives the same bytes as joining
      all their frames at once. */
  lemma {:induction false} JoinEachFlatten(groups: seq<seq<Frame>>)
    ensures Join(JoinEach(groups)) == Join(Flatten(groups))
    decreases |groups|
  {
    if groups != [] {
      var init := groups[..|groups| - 1];
      var last := groups[|groups| - 1];
      assert JoinEach(groups)[..|groups| - 1] == JoinEach(init);
      JoinEachFlatten(init);
      JoinAppend(Flatten(init), last);
    }
  }

  /** The boundary test, evaluated after the new frame has been appended. */
  predicate FlushDue(buffered: nat, elapsedMs: int) {
    elapsedMs >= PhraseTimeLimitMs || buffered >= MaxBufferedFrames
  }

  /** The loop's local state: `audio_buffer` and `last_process_time`. */
  datatype AggState = AggState(buffer: seq<Frame>, lastProcessTime: int)

  /** The state after one frame, and the frames taken out of the buffer at a
      boundary (empty when no boundary was reached). */
  datatype StepOutcome = StepOutcome(next: AggState, flushed: seq<Frame>)

  /** One frame arriving at time `now`. */
  function Advance(s: AggState, frame: Frame, now: int): (r: StepOutcome)
    ensures r.flushed + r.next.buffer == s.buffer + [frame]
    ensures r.flushed != [] <==> FlushDue(|s.buffer| + 1, now - s.lastProcessTime)
    ensures r.flushed != [] ==> r.next == AggState([], now)
    ensures r.flushed == [] ==> r.next.lastProcessTime == s.lastProcessTime
    ensures |s.buffer| < MaxBufferedFrames ==>
      |r.next.buffer| < MaxBufferedFrames && |r.flushed| <= MaxBufferedFrames
  {
    var buffer := s.buffer + [frame];
    if FlushDue(|buffer|, now - s.lastProcessTime) then StepOutcome(AggState([], now), buffer)
    else StepOutcome(AggState(buffer, s.lastProcessTime), [])
  }

  /** What reaches `on_audio_data`: the joined buffer, but only at a boundary
      and only while a consumer is registered; otherwise the frames are dropped. */
  function Delivered(flushed: seq<Frame>, consumerSet: bool): (r: Option<seq<bv8>>)
    ensures r.Some? <==> flushed != [] && consumerSet
  {
    if flushed != [] && consumerSet then Some(Join(flushed)) else None
  }

  /** What `audio_queue.get(timeout=0.1)` produced on one pass of the loop:
      a frame together with the clock reading taken right after it, a
      `queue.Empty` timeout, or an exception (which ends the loop). */
  datatype QueueItem = Got(frame: Frame, now: int) | TimedOut | Failed(message: string)

  predicate Halted(items: seq<QueueItem>) {
    exists i :: 0 <= i < |items| && items[i].Failed?
  }

  /** The frames the loop takes from the queue: every frame before the first failure. */
  function Received(items: seq<QueueItem>): seq<Frame> {
    if items == [] then []
    else
      var init, last := items[..|items| - 1], items[|items| - 1];
      if Halted(init) || !last.Got? then Received(init) else Received(init) + [last.frame]
  }

  datatype RunOutcome = RunOutcome(
    state: AggState,                // the loop's locals when it stops
    flushed: seq<seq<Frame>>,       // every buffer emptied at a boundary, in order
    emitted: seq<seq<bv8>>,         // the byte strings passed to on_audio_data, in order
    error: Option<string>)          // the exception that ended the loop, if any

  lemma HaltedSnoc(items: seq<QueueItem>)
    requires items != []
    ensures Halted(items) <==> Halted(items[..|items| - 1]) || items[|items| - 1].Failed?
  {
    var init := items[..|items| - 1];
    if Halted(items) && !items[|items| - 1].Failed? {
      var i :| 0 <= i < |items| && items[i].Failed?;
      assert init[i].Failed?;
    }
    if Halted(init) {
      var i :| 0 <= i < |init| && init[i].Failed?;
      assert items[i].Failed?;
    }
  }

  lemma FlattenSnoc(groups: seq<seq<Frame>>, g: seq<Frame>)
    ensures Flatten(groups + [g]) == Flatten(groups) + g
  {
    assert (groups + [g])[..|groups|] == groups;
  }

  /** One pass of the loop: the queue item `item` applied to the outcome so far. */
  function Consume(prev: RunOutcome, item: QueueItem, consumerSet: bool): RunOutcome {
    if prev.error.Some? then prev
    else
      match item
      case TimedOut => prev
      case Failed(m) => RunOutcome(prev.state, prev.flushed, prev.emitted, Some(m))
      case Got(frame, now) =>
        var st := Advance(prev.state, frame, now);
        if st.flushed == [] then RunOutcome(st.next, prev.flushed, prev.emitted, None)
        else RunOutcome(st.next, prev.flushed + [st.flushed],
                        prev.emitted + (if consumerSet then [Join(st.flushed)] else []), None)
  }

  /** The loop run over the items observed while `is_recording` held. */
  function Run(s0: AggState, items: seq<QueueItem>, consumerSet: bool): RunOutcome {
    if items == [] then RunOutcome(s0, [], [], None)
    else Consume(Run(s0, items[..|items| - 1], consumerSet), items[|items| - 1], consumerSet)
  }

  /** The loop ends on an exception exactly when the queue produced one. */
  lemma {:induction false} RunHaltsOnFailure(s0: AggState, items: seq<QueueItem>, consumerSet: bool)
    ensures Run(s0, items, consumerSet).error.Some? <==> Halted(items)
  {
    if items != [] {
      HaltedSnoc(items);
      RunHaltsOnFailure(s0, items[..|items| - 1], consumerSet);
    }
  }

  lemma ConsumeConserves(prev: RunOutcome, item: QueueItem, consumerSet: bool)
    ensures var r := Consume(prev, item, consumerSet);
      Flatten(r.flushed) + r.state.buffer
        == Flatten(prev.flushed) + prev.state.buffer + (if prev.error.None? && item.Got? then [item.frame] else [])
  {
    if prev.error.None? && item.Got? {
      var st := Advance(prev.state, item.frame, item.now);
      if st.flushed != [] {
        FlattenSnoc(prev.flushed, st.flushed);
      }
    }
  }

  /** Buffers emptied at boundaries, followed by what is still buffered, are
      exactly the frames taken from the queue: nothing duplicated, lost or
      reordered. */
  lemma {:induction false} RunConservesFrames(s0: AggState, items: seq<QueueItem>, consumerSet: bool)
    ensures var r := Run(s0, items, consumerSet);
      Flatten(r.flushed) + r.state.buffer == s0.buffer + Received(items)
  {
    if items != [] {
      var init := items[..|items| - 1];
      RunConservesFrames(s0, init, consumerSet);
      RunHaltsOnFailure(s0, init, consumerSet);
      ConsumeConserves(Run(s0, init, consumerSet), items[|items| - 1], consumerSet);
    }
  }

  /** Between steps the buffer holds at most 49 frames, and every emptied
      buffer held between 1 and 50 frames. */
  lemma {:induction false} RunBounded(s0: AggState, items: seq<QueueItem>, consumerSet: bool)
    requires |s0.buffer| < MaxBufferedFrames
    ensures var r := Run(s0, items, consumerSet);
      && |r.state.buffer| < MaxBufferedFrames
      && forall g :: g in r.flushed ==> 1 <= |g| <= MaxBufferedFrames
  {
    if items != [] {
      RunBounded(s0, items[..|items| - 1], consumerSet);
    }
  }

  /** With a consumer, every emptied buffer is delivered, joined, in order;
      without one, nothing is. */
  lemma {:induction false} RunEmits(s0: AggState, items: seq<QueueItem>, consumerSet: bool)
    ensures var r := Run(s0, items, consumerSet);
      r.emitted == if consumerSet then JoinEach(r.flushed) else []
  {
    if items != [] {
      RunEmits(s0, items[..|items| - 1], consumerSet);
      var r := Run(s0, items, consumerSet);
      if consumerSet && r.flushed != [] {
        assert r.flushed[..|r.flushed| - 1] + [r.flushed[|r.flushed| - 1]] == r.flushed;
      }
    }
  }

  /** Every frame taken from the queue is delivered exactly once and in order,
      or is still buffered, as long as a consumer is registered. */
  lemma FrameConservation(s0: AggState, items: seq<QueueItem>)
    ensures var r := Run(s0, items, true);
      Join(r.emitted) + Join(r.state.buffer) == Join(s0.buffer) + Join(Received(items))
  {
    var r := Run(s0, items, true);
    RunConservesFrames(s0, items, true);
    RunEmits(s0, items, true);
    JoinEachFlatten(r.flushed);
    JoinAppend(Flatten(r.flushed), r.state.buffer);
    JoinAppend(s0.buffer, Received(items));
  }

  /** Without a consumer, boundaries still empty the buffer: nothing is
      delivered and the flushed frames are lost. */
  lemma DroppedWithoutConsumer(s0: AggState, items: seq<QueueItem>)
    ensures var r := Run(s0, items, false);
      && r.emitted == []
      && r.state == Run(s0, items, true).state
      && r.flushed == Run(s0, items, true).flushed
  {
    RunIgnoresConsumer(s0, items);
    RunEmits(s0, items, false);
  }

  lemma {:induction false} RunIgnoresConsumer(s0: AggState, items: seq<QueueItem>)
    ensures Run(s0, items, false).state == Run(s0, items, true).state
    ensures Run(s0, items, false).flushed == Run(s0, items, true).flushed
    ensures Run(s0, items, false).error == Run(s0, items, true).error
  {
    if items != [] {
      RunIgnoresConsumer(s0, items[..|items| - 1]);
    }
  }

  /** Once the loop has ended on an exception, later items are never looked at. */
  lemma {:induction false} RunStopsAtFailure(s0: AggState, items: seq<QueueItem>, more: seq<QueueItem>, consumerSet: bool)
    requires Halted(items)
    ensures Run(s0, items + more, consumerSet) == Run(s0, items, consumerSet)
    decreases |more|
  {
    if more == [] {
      assert items + more == items;
    } else {
      var all := items + more;
      var init := items + more[..|more| - 1];
      assert all[..|all| - 1] == init;
      RunStopsAtFailure(s0, items, more[..|more| - 1], consumerSet);
      var i :| 0 <= i < |items| && items[i].Failed?;
      assert init[i].Failed?;
      RunHaltsOnFailure(s0, init, consumerSet);
    }
  }

  /** Where the loop stopped early, the rest of the items make no difference. */
  lemma RunUpToExit(s0: AggState, items: seq<QueueItem>, i: nat, consumerSet: bool)
    requires i <= |items|
    requires i < |items| ==> Run(s0, items[..i], consumerSet).error.Some?
    ensures Run(s0, items, consumerSet) == Run(s0, items[..i], consumerSet)
  {
    if i < |items| {
      assert items == items[..i] + items[i..];
      RunHaltsOnFailure(s0, items[..i], consumerSet);
      RunStopsAtFailure(s0, items[..i], items[i..], consumerSet);
    } else {
      assert items[..i] == items;
    }
  }

  /** A queue timeout is a no-op: in particular it never triggers a hand-off,
      however much time has passed. */
  lemma TimeoutChangesNothing(s0: AggState, items: seq<QueueItem>, consumerSet: bool)
    ensures Run(s0, items + [TimedOut], consumerSet) == Run(s0, items, consumerSet)
  {
    assert (items + [TimedOut])[..|items|] == items;
  }

  /** The aggregator's invariant: the buffer stays below the frame limit,
      the groups handed off followed by the buffer are every frame received,
      and every group holds between 1 and 50 frames. */
  ghost predicate Consistent(buffer: seq<Frame>, received: seq<Frame>, flushed: seq<seq<Frame>>) {
    && |buffer| < MaxBufferedFrames
    && Flatten(flushed) + buffer == received
    && forall g :: g in flushed ==> 1 <= |g| <= MaxBufferedFrames
  }

  /** Handing off the buffer with the new frame appended keeps the invariant. */
  lemma FlushKeepsConsistent(buffer: seq<Frame>, received: seq<Frame>, flushed: seq<seq<Frame>>, frame: Frame)
    requires Consistent(buffer, received, flushed)
    ensures Consistent([], received + [frame], flushed + [buffer + [frame]])
  {
    FlattenSnoc(flushed, buffer + [frame]);
  }

  /** Keeping the new frame in the buffer keeps the invariant while the
      buffer stays below the limit. */
  lemma PushKeepsConsistent(buffer: seq<Frame>, received: seq<Frame>, flushed: seq<seq<Frame>>, frame: Frame)
    requires Consistent(buffer, received, flushed) && |buffer| + 1 < MaxBufferedFrames
    ensures Consistent(buffer + [frame], received + [frame], flushed)
  {
  }

  /** The loop's local state, kept across iterations, with its flush step. */
  class ChunkAggregator {
    var buffer: seq<Frame>
    var lastProcessTime: int
    /** every frame pushed so far */
    ghost var received: seq<Frame>
    /** every buffer emptied at a boundary so far */
    ghost var flushed: seq<seq<Frame>>

    ghost predicate Valid()
      reads this
    {
      Consistent(buffer, received, flushed)
    }

    function State(): AggState
      reads this
    {
      AggState(buffer, lastProcessTime)
    }

    /** `audio_buffer = []` and `last_process_time = time.time()` */
    constructor (now: int)
      ensures Valid()
      ensures State() == AggState([], now) && received == [] && flushed == []
    {
      buffer := [];
      lastProcessTime := now;
      received := [];
      flushed := [];
    }

    /** One frame taken from the queue at time `now`; returns what is passed
        to `on_audio_data`, if anything. */
    method Step(frame: Frame, now: int, consumerSet: bool) returns (segment: Option<seq<bv8>>)
      requires Valid()
      modifies this
      ensures Valid()
      ensures State() == Advance(old(State()), frame, now).next
      ensures received == old(received) + [frame]
      ensures var out := Advance(old(State()), frame, now).flushed;
        && segment == Delivered(out, consumerSet)
        && flushed == old(flushed) + (if out == [] then [] else [out])
    {
      ghost var st := Advance(State(), frame, now);
      var pending := buffer + [frame];
      received := received + [frame];
      if now - lastProcessTime >= PhraseTimeLimitMs || |pending| >= MaxBufferedFrames {
        assert st.flushed == pending && st.next == AggState([], now);
        segment := None;
        if |pending| > 0 && consumerSet {
          segment := Some(Join(pending));
        }
        FlushKeepsConsistent(buffer, old(received), flushed, frame);
        flushed := flushed + [pending];
        buffer := [];
        lastProcessTime := now;
      } else {
        assert st.flushed == [] && st.next == AggState(pending, lastProcessTime);
        PushKeepsConsistent(buffer, old(received), flushed, frame);
        segment := None;
        buffer := pending;
      }
    }
  }

  lemma RunSnoc(s0: AggState, items: seq<QueueItem>, i: nat, consumerSet: bool)
    requires i < |items|
    ensures Run(s0, items[..i + 1], consumerSet) == Consume(Run(s0, items[..i], consumerSet), items[i], consumerSet)
  {
    assert items[..i + 1][..i] == items[..i];
  }

  /** One frame taken by the loop, spelled out through `Advance` and `Delivered`. */
  lemma ConsumeGot(prev: RunOutcome, frame: Frame, now: int, consumerSet: bool)
    requires prev.error.None?
    ensures var out := Advance(prev.state, frame, now).flushed;
      var d := Delivered(out, consumerSet);
      Consume(prev, Got(frame, now), consumerSet)
        == RunOutcome(Advance(prev.state, frame, now).next,
                      prev.flushed + (if out == [] then [] else [out]),
                      prev.emitted + (if d.Some? then [d.value] else []),
                      None)
  {
  }

  /** The loop started on an empty buffer keeps fewer than 50 frames
      buffered, delivers nothing without a consumer, and with one delivers
      every frame taken, in order, except those still buffered. */
  lemma RunFromEmpty(startTime: int, items: seq<QueueItem>, consumerSet: bool)
    ensures var r := Run(AggState([], startTime), items, consumerSet);
      && |r.state.buffer| < MaxBufferedFrames
      && (consumerSet ==> Join(r.emitted) + Join(r.state.buffer) == Join(Received(items)))
      && (!consumerSet ==> r.emitted == [])
  {
    var s0 := AggState([], startTime);
    RunBounded(s0, items, consumerSet);
    RunEmits(s0, items, consumerSet);
    FrameConservation(s0, items);
    assert Join(s0.buffer) == [];
  }

  /** One pass of the loop body, before any exception: a frame goes through
      the aggregator, a timeout does nothing, and an exception is recorded so
      that the loop ends. */
  method TakeItem(agg: ChunkAggregator, item: QueueItem, consumerSet: bool, segments: seq<seq<bv8>>)
      returns (segments': seq<seq<bv8>>, failure: Option<string>)
    requires agg.Valid()
    modifies agg
    ensures agg.Valid()
    ensures RunOutcome(agg.State(), agg.flushed, segments', failure)
      == Consume(RunOutcome(old(agg.State()), old(agg.flushed), segments, None), item, consumerSet)
  {
    ghost var prev := RunOutcome(agg.State(), agg.flushed, segments, None);
    segments', failure := segments, None;
    match item {
      case TimedOut =>
      case Failed(m) =>
        failure := Some(m);
      case Got(frame, now) =>
        var segment := agg.Step(frame, now, consumerSet);
        if segment.Some? {
          segments' := segments + [segment.value];
        }
        ConsumeGot(prev, frame, now, consumerSet);
    }
  }

  /** `_process_audio_data` run over the queue items seen while recording,
      starting at `startTime`: returns the segments handed to `on_audio_data`,
      the partial buffer abandoned when the loop ends, and the messages passed
      to `on_error`. */
  method ProcessAudioData(startTime: int, items: seq<QueueItem>, consumerSet: bool, errorCallbackSet: bool)
    returns (segments: seq<seq<bv8>>, leftover: seq<Frame>, errors: seq<string>)
    ensures var r := Run(AggState([], startTime), items, consumerSet);
      && segments == r.emitted
      && leftover == r.state.buffer
      && errors == if errorCallbackSet && r.error.Some? then [ProcessingErrorPrefix + r.error.value] else []
    ensures |leftover| < MaxBufferedFrames
    ensures consumerSet ==> Join(segments) + Join(leftover) == Join(Received(items))
    ensures !consumerSet ==> segments == []
  {
    var agg := new ChunkAggregator(startTime);
    ghost var s0 := AggState([], startTime);
    segments, errors := [], [];
    var failure: Option<string> := None;
    var i := 0;
    while i < |items| && failure.None?
      invariant 0 <= i <= |items|
      invariant agg.Valid()
      invariant Run(s0, items[..i], consumerSet) == RunOutcome(agg.State(), agg.flushed, segments, failure)
    {
      RunSnoc(s0, items, i, consumerSet);
      segments, failure := TakeItem(agg, items[i], consumerSet, segments);
      i := i + 1;
    }
    // the handler reports the exception and breaks out of the loop
    if failure.Some? && errorCallbackSet {
      errors := [ProcessingErrorPrefix + failure.value];
    }
    RunUpToExit(s0, items, i, consumerSet);
    leftover := agg.buffer;
    RunFromEmpty(startTime, items, consumerSet);
  }
}
