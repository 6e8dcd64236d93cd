/** The voice capture controller of src/services/hooks/useVoiceRecorder.ts.

    The browser's media APIs are the environment: `startRecording()` is split
    at its `await` into `RequestStart` and `SettleStart`, whether the
    microphone was granted is an argument of the latter, the recorder's
    `dataavailable` events are `DataAvailable` steps, and its `stop` event is
    `StopConfirmed`. The artifact is the `Blob` of the buffered chunks. */
module VoiceRecorder {
  import opened Types
  import Seqs

  const DeniedMessage: string := "Microphone access denied. Please allow microphone permissions."
  const AudioType: string := "audio/webm"

  datatype RecordingState = Idle | Recording | Processing

  /** The hook's state: `recordingState`, `error`, whether `mediaRecorderRef`
      holds a recorder, `chunksRef.current`, and whether an `onstop` handler
      installed by `stopRecording` still awaits its `stop` event. */
  datatype Recorder = Recorder(
    state: RecordingState,
    error: Option<string>,
    hasRecorder: bool,
    chunks: seq<Chunk>,
    stopping: bool)

  /** The state of a freshly mounted hook. */
  const Initial: Recorder := Recorder(Idle, None, false, [], false)

  /** The synchronous half of `startRecording()`: clear the error, then
      suspend on the microphone request. */
  function RequestStart(r: Recorder): (r': Recorder)
    ensures r'.error == None
    ensures r'.state == r.state && r'.hasRecorder == r.hasRecorder
    ensures r'.chunks == r.chunks && r'.stopping == r.stopping
  {
    r.(error := None)
  }

  /** The half of `startRecording()` after the microphone request settles:
      on a grant install a new recorder with an empty buffer and record,
      leaving the error as it now is; on a denial report it and go idle,
      leaving any installed recorder in place. There is no guard on the
      current state. */
  function SettleStart(r: Recorder, granted: bool): (r': Recorder)
    ensures granted ==> r'.state == Recording && r'.hasRecorder && r'.chunks == [] && r'.error == r.error
    ensures !granted ==> r'.state == Idle && r'.error == Some(DeniedMessage)
    ensures !granted ==> r'.hasRecorder == r.hasRecorder && r'.chunks == r.chunks
    ensures r'.stopping == r.stopping
  {
    if granted then Recorder(Recording, r.error, true, [], r.stopping)
    else r.(state := Idle, error := Some(DeniedMessage))
  }

  /** `startRecording()` with nothing else happening while it awaits the
      microphone. */
  function StartRecording(r: Recorder, granted: bool): (r': Recorder)
    ensures granted ==> r'.state == Recording && r'.error == None && r'.hasRecorder && r'.chunks == []
    ensures !granted ==> r'.state == Idle && r'.error == Some(DeniedMessage)
    ensures !granted ==> r'.hasRecorder == r.hasRecorder && r'.chunks == r.chunks
    ensures r'.stopping == r.stopping
  {
    SettleStart(RequestStart(r), granted)
  }

  /** Two overlapping starts whose requests settle differently. If the
      denial settles first, the hook records while it still reports the
      denial; if the grant settles first, the hook shows idle while the
      recorder the grant installed stays in place. */
  lemma OverlappingStarts(r: Recorder)
    ensures var both := RequestStart(RequestStart(r));
            var deniedFirst := SettleStart(SettleStart(both, false), true);
            var grantedFirst := SettleStart(SettleStart(both, true), false);
            && deniedFirst.state == Recording && deniedFirst.error == Some(DeniedMessage)
            && grantedFirst.state == Idle && grantedFirst.hasRecorder && grantedFirst.chunks == []
  {
  }

  /** Chunks the `dataavailable` handler keeps. */
  predicate NonEmpty(c: Chunk) {
    c.size > 0
  }

  /** One `dataavailable` event: only a chunk of positive size is buffered. */
  function DataAvailable(r: Recorder, c: Chunk): (r': Recorder)
    ensures r'.chunks == if c.size > 0 then r.chunks + [c] else r.chunks
    ensures r'.state == r.state && r'.error == r.error
    ensures r'.hasRecorder == r.hasRecorder && r'.stopping == r.stopping
  {
    if NonEmpty(c) then r.(chunks := r.chunks + [c]) else r
  }

  /** A run of `dataavailable` events, in arrival order. */
  function Deliver(r: Recorder, cs: seq<Chunk>): (r': Recorder)
    ensures r'.state == r.state && r'.error == r.error
    ensures r'.hasRecorder == r.hasRecorder && r'.stopping == r.stopping
    decreases |cs|
  {
    if cs == [] then r
    else Deliver(DataAvailable(r, cs[0]), cs[1..])
  }

  /** The buffer gains exactly the non-empty chunks of the run, in order. */
  lemma {:induction false} DeliverBuffers(r: Recorder, cs: seq<Chunk>)
    ensures Deliver(r, cs).chunks == r.chunks + Seqs.Filter(cs, NonEmpty)
    decreases |cs|
  {
    if cs != [] {
      var kept := if NonEmpty(cs[0]) then [cs[0]] else [];
      var d := DataAvailable(r, cs[0]);
      var rest := Seqs.Filter(cs[1..], NonEmpty);
      DeliverBuffers(d, cs[1..]);
      assert d.chunks == r.chunks + kept;
      assert Seqs.Filter(cs, NonEmpty) == kept + rest;
      assert (r.chunks + kept) + rest == r.chunks + (kept + rest);
    }
  }

  /** What `stopRecording()` did synchronously: whether its promise resolved
      with `null` at once, and the state it left. */
  datatype StopRequest = StopRequest(recorder: Recorder, resolvedNull: bool)

  /** `stopRecording()`: without a recorder, or unless recording, resolve
      `null` and change nothing; otherwise go to processing and await the
      recorder's `stop` event. */
  function StopRecording(r: Recorder): (s: StopRequest)
    ensures s.resolvedNull <==> !r.hasRecorder || r.state != Recording
    ensures s.resolvedNull ==> s.recorder == r
    ensures !s.resolvedNull ==> s.recorder == r.(state := Processing, stopping := true)
  {
    if !r.hasRecorder || r.state != Recording then StopRequest(r, true)
    else StopRequest(r.(state := Processing, stopping := true), false)
  }

  /** The recorder's `stop` event: the installed handler wraps the buffered
      chunks, in order, into an `audio/webm` blob, goes idle and resolves the
      promise with it. Without an installed handler nothing happens. */
  datatype Confirmation = Confirmation(recorder: Recorder, blob: Option<Blob>)

  function StopConfirmed(r: Recorder): (c: Confirmation)
    ensures r.stopping ==> c.recorder.state == Idle && !c.recorder.stopping
    ensures r.stopping ==> c.blob == Some(Blob(r.chunks, AudioType))
    ensures !r.stopping ==> c == Confirmation(r, None)
    ensures c.recorder.chunks == r.chunks && c.recorder.error == r.error
  {
    if r.stopping then Confirmation(r.(state := Idle, stopping := false), Some(Blob(r.chunks, AudioType)))
    else Confirmation(r, None)
  }

  /** A complete recording: a granted start, chunks while recording, a stop
      request, the final chunks the recorder flushes, and the stop event.
      The blob holds exactly the non-empty chunks of both batches, in order,
      and the recorder ends idle. Whatever was buffered before is dropped. */
  lemma RecordingRoundTrip(r: Recorder, before: seq<Chunk>, after: seq<Chunk>)
    ensures var recording := Deliver(StartRecording(r, true), before);
            var request := StopRecording(recording);
            var done := StopConfirmed(Deliver(request.recorder, after));
            && !request.resolvedNull
            && done.recorder.state == Idle
            && done.blob == Some(Blob(Seqs.Filter(before + after, NonEmpty), AudioType))
  {
    var started := StartRecording(r, true);
    assert started.chunks == [] && started.hasRecorder && started.state == Recording;
    var recording := Deliver(started, before);
    DeliverBuffers(started, before);
    assert recording.chunks == Seqs.Filter(before, NonEmpty);
    var request := StopRecording(recording);
    assert request.recorder.stopping && request.recorder.chunks == recording.chunks;
    var flushed := Deliver(request.recorder, after);
    DeliverBuffers(request.recorder, after);
    assert flushed.stopping && flushed.chunks == recording.chunks + Seqs.Filter(after, NonEmpty);
    Seqs.FilterAppend(before, after, NonEmpty);
  }

  // ─── The state machine ──────────────────────────────────────────────────────

  /** What can happen to the hook. */
  datatype Event = StartRequested | StartSettled(granted: bool) | Data(chunk: Chunk) | Stop | StopEvent

  function Step(r: Recorder, e: Event): Recorder {
    match e
    case StartRequested => RequestStart(r)
    case StartSettled(granted) => SettleStart(r, granted)
    case Data(c) => DataAvailable(r, c)
    case Stop => StopRecording(r).recorder
    case StopEvent => StopConfirmed(r).recorder
  }

  /** Every state the hook can reach from `Initial`: a recorder exists
      whenever it records or processes, and processing always has a stop
      handler pending. */
  predicate Consistent(r: Recorder) {
    && (r.state != Idle ==> r.hasRecorder)
    && (r.state == Processing ==> r.stopping)
  }

  /** Which state changes one event can make. Recording is entered only by a
      granted microphone request; processing only by a stop request while
      recording; and a recording ends only in processing, or in idle through
      a denied microphone request or a pending stop handler firing. */
  lemma StepTransitions(r: Recorder, e: Event)
    ensures var s := Step(r, e).state;
            && (s == Recording && r.state != Recording ==> e == StartSettled(true))
            && (s == Processing && r.state != Processing ==> r.state == Recording && e == Stop)
            && (r.state == Recording && s == Idle ==> e == StartSettled(false) || (e == StopEvent && r.stopping))
            && (e.Data? || e.StartRequested? ==> s == r.state)
  {
  }

  function Run(r: Recorder, events: seq<Event>): Recorder
    decreases |events|
  {
    if events == [] then r else Run(Step(r, events[0]), events[1..])
  }

  /** Every reachable state is consistent. */
  lemma {:induction false} RunStaysConsistent(r: Recorder, events: seq<Event>)
    requires Consistent(r)
    ensures Consistent(Run(r, events))
    decreases |events|
  {
    if events != [] {
      RunStaysConsistent(Step(r, events[0]), events[1..]);
    }
  }

  lemma InitialIsConsistent()
    ensures Consistent(Initial) && Initial.state == Idle && Initial.error == None
  {
  }
}
