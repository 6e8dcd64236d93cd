/** The composer of src/components/ChatInput.tsx: the draft text and the
    staged images, the send guard, the Enter-key rule, its own five-image
    `processFiles`, and how a voice transcription is appended to the draft.
    The `onSend` prop is the output of a send; recording and transcription
    are the steps of VoiceRecorder and Api. */
module ChatInput {
  import opened Types
  import Text
  import Seqs
  import Api
  import ImageUploader
  import VoiceRecorder
  import VoiceButton
  import Chat

  /** The capacity of the composer's own `processFiles`: the uploader's
      default. */
  const MaxImages: int := ImageUploader.DefaultMaxImages

  /** The component's state: `text` and `images`. */
  datatype Draft = Draft(text: string, images: seq<UploadedImage>)

  /** The arguments of one `onSend(content, images)` call. */
  datatype Sent = Sent(content: string, images: Nullish<seq<UploadedImage>>)

  datatype SendOutcome = SendOutcome(draft: Draft, sent: Option<Sent>)

  /** `canSend`, which enables the send button: not disabled, and some text
      other than whitespace or some staged image. */
  function CanSend(d: Draft, disabled: bool): (can: bool)
    ensures can <==> !disabled && (!Text.Blank(d.text) || d.images != [])
  {
    !disabled && (|Text.Trim(d.text)| > 0 || |d.images| > 0)
  }

  /** `handleSend`: unless disabled or empty, hand the trimmed text and the
      staged images (`undefined` when none) to `onSend`, then empty the draft. */
  function HandleSend(d: Draft, disabled: bool): (o: SendOutcome)
    ensures o.sent.Some? <==> CanSend(d, disabled)
    ensures o.sent.None? ==> o.draft == d
    ensures o.sent.Some? ==> o.draft == Draft("", [])
    ensures o.sent.Some? ==> o.sent.value.content == Text.Trim(d.text)
    ensures o.sent.Some? && d.images != [] ==> o.sent.value.images == Defined(d.images)
    ensures o.sent.Some? && d.images == [] ==> o.sent.value.images == Undefined
  {
    if disabled || (Text.Trim(d.text) == [] && |d.images| == 0) then SendOutcome(d, None)
    else SendOutcome(Draft("", []), Some(Sent(Text.Trim(d.text), if |d.images| > 0 then Defined(d.images) else Undefined)))
  }

  /** `handleKeyDown`: Enter without Shift sends; any other key leaves the
      draft to the textarea. */
  function HandleKeyDown(d: Draft, disabled: bool, key: string, shiftKey: bool): (o: SendOutcome)
    ensures key == "Enter" && !shiftKey ==> o == HandleSend(d, disabled)
    ensures !(key == "Enter" && !shiftKey) ==> o == SendOutcome(d, None)
  {
    if key == "Enter" && !shiftKey then HandleSend(d, disabled) else SendOutcome(d, None)
  }

  /** The composer's `processFiles`: the image files, at most `5 - images.length`
      of them, appended after the staged images. */
  function StageFiles(d: Draft, files: seq<FileHandle>, ids: nat -> string, previews: nat -> string): (d': Draft)
    ensures d'.text == d.text
    ensures |d.images| <= |d'.images| && d'.images[..|d.images|] == d.images
    ensures Files(d'.images[|d.images|..]) ==
            ImageUploader.SliceTo(ImageUploader.ImageFiles(files), MaxImages - |d.images|)
    ensures |d.images| <= MaxImages ==> |d'.images| <= MaxImages
  {
    var staged := ImageUploader.ProcessFiles(d.images, files, MaxImages, ids, previews);
    assert |d.images| <= MaxImages ==> |staged| <= MaxImages by {
      if |d.images| <= MaxImages {
        ImageUploader.ProcessFilesWithinCapacity(d.images, files, MaxImages, ids, previews);
      }
    }
    d.(images := staged)
  }

  /** Fresh ids that differ from each other and from the staged images' ids
      keep every id in the draft distinct. */
  lemma StageFilesKeepsIdsUnique(d: Draft, files: seq<FileHandle>, ids: nat -> string, previews: nat -> string)
    requires ImageUploader.UniqueImageIds(d.images)
    requires forall a: nat, b: nat :: a < b ==> ids(a) != ids(b)
    requires forall a: nat, k :: 0 <= k < |d.images| ==> ids(a) != d.images[k].id
    ensures ImageUploader.UniqueImageIds(StageFiles(d, files, ids, previews).images)
  {
    ImageUploader.ProcessFilesKeepsIdsUnique(d.images, files, MaxImages, ids, previews);
  }

  /** `prev + (prev ? ' ' : '') + text` after a transcription that succeeded
      with non-empty text; any other outcome leaves the draft alone. */
  function AppendTranscript(prev: string, result: ApiResponse<Api.Transcript>): (text: string)
    ensures var heard := result.success && result.data.Defined? && Present(result.data.value.text);
            && (!heard ==> text == prev)
            && (heard ==>
                  var t := result.data.value.text.value;
                  var gap := if prev == "" then 0 else 1;
                  && |text| == |prev| + gap + |t|
                  && text[..|prev|] == prev
                  && text[|prev| + gap..] == t
                  && (gap == 1 ==> text[|prev|] == ' '))
  {
    if result.success && result.data.Defined? && Present(result.data.value.text)
    then prev + (if prev != "" then " " else "") + result.data.value.text.value
    else prev
  }

  /** The two branches of `handleVoiceToggle`. */
  datatype Toggle = StopAndTranscribe | StartRecording

  /** `handleVoiceToggle` stops exactly when the microphone button would call
      `onStop`, and starts whenever it would call `onStart`. */
  function VoiceToggle(s: VoiceRecorder.RecordingState): (t: Toggle)
    ensures t == StopAndTranscribe <==> VoiceButton.HandleClick(s) == VoiceButton.CallStop
    ensures VoiceButton.HandleClick(s) == VoiceButton.CallStart ==> t == StartRecording
  {
    if s == VoiceRecorder.Recording then StopAndTranscribe else StartRecording
  }

  /** What the stop branch leaves: the draft text, the recorder, and the blob
      handed to `transcribeAudio`, if any. */
  datatype StopOutcome = StopOutcome(text: string, recorder: VoiceRecorder.Recorder, audio: Option<Blob>)

  /** The stop branch of `handleVoiceToggle`: `stopRecording()`; when its
      promise did not resolve with `null` at once, the chunks the recorder
      flushes, its `stop` event, and `transcribeAudio` of the blob, answering
      `result`. Only a recorded blob is transcribed, it holds the buffered
      and flushed non-empty chunks in order, and a `null` stop leaves the
      draft and the recorder alone. */
  function StopBranch(prev: string, r: VoiceRecorder.Recorder, flushed: seq<Chunk>,
                      result: ApiResponse<Api.Transcript>): (o: StopOutcome)
    ensures o.audio.Some? <==> r.hasRecorder && r.state == VoiceRecorder.Recording
    ensures o.audio.None? ==> o.text == prev && o.recorder == r
    ensures o.audio.Some? ==>
              && o.audio.value == Blob(r.chunks + Seqs.Filter(flushed, VoiceRecorder.NonEmpty), VoiceRecorder.AudioType)
              && o.recorder.state == VoiceRecorder.Idle && !o.recorder.stopping
              && o.text == AppendTranscript(prev, result)
  {
    var request := VoiceRecorder.StopRecording(r);
    if request.resolvedNull then StopOutcome(prev, request.recorder, None)
    else
      VoiceRecorder.DeliverBuffers(request.recorder, flushed);
      var done := VoiceRecorder.StopConfirmed(VoiceRecorder.Deliver(request.recorder, flushed));
      StopOutcome(AppendTranscript(prev, result), done.recorder, done.blob)
  }

  // ─── Properties across components ───────────────────────────────────────────

  /** The composer passes `handleVoiceToggle` as both `onStart` and `onStop`,
      so an enabled click stops while recording and starts while idle, and
      the resulting recorder state is the one the click aimed for. */
  lemma VoiceClickToggles(disabled: bool, r: VoiceRecorder.Recorder, granted: bool,
                          prev: string, flushed: seq<Chunk>, result: ApiResponse<Api.Transcript>)
    requires !VoiceButton.Disabled(disabled, r.state)
    requires VoiceRecorder.Consistent(r)
    ensures VoiceButton.HandleClick(r.state) != VoiceButton.NoCall
    ensures VoiceToggle(r.state) == StopAndTranscribe <==> r.state == VoiceRecorder.Recording
    ensures VoiceToggle(r.state) == StopAndTranscribe ==>
              VoiceRecorder.StopRecording(r).recorder.state == VoiceRecorder.Processing
    ensures VoiceToggle(r.state) == StopAndTranscribe ==> StopBranch(prev, r, flushed, result).audio.Some?
    ensures VoiceToggle(r.state) == StartRecording && granted ==>
              VoiceRecorder.StartRecording(r, granted).state == VoiceRecorder.Recording
  {
  }

  /** Dictation end to end: a granted start, chunks while recording, a click
      that stops, the flushed chunks. The blob transcribed holds exactly the
      non-empty chunks of both batches, in order, and the transcription
      request carries it as `recording.webm`. */
  lemma DictationRoundTrip(prev: string, r: VoiceRecorder.Recorder, before: seq<Chunk>, after: seq<Chunk>,
                           result: ApiResponse<Api.Transcript>, ctx: Api.Context)
    ensures var recording := VoiceRecorder.Deliver(VoiceRecorder.StartRecording(r, true), before);
            var o := StopBranch(prev, recording, after, result);
            var blob := Blob(Seqs.Filter(before + after, VoiceRecorder.NonEmpty), VoiceRecorder.AudioType);
            && VoiceToggle(recording.state) == StopAndTranscribe
            && o.audio == Some(blob)
            && o.text == AppendTranscript(prev, result)
            && Api.AudioValues(Api.TranscribeRequest(ctx, blob).body.parts, "audio") == [(blob, Api.RecordingFileName)]
  {
    var started := VoiceRecorder.StartRecording(r, true);
    var recording := VoiceRecorder.Deliver(started, before);
    VoiceRecorder.DeliverBuffers(started, before);
    assert recording.chunks == Seqs.Filter(before, VoiceRecorder.NonEmpty);
    Seqs.FilterAppend(before, after, VoiceRecorder.NonEmpty);
  }

  /** Whatever the composer sends passes the session manager's own guard, so
      the log grows by the user message and the placeholder, and the stored
      content is already trimmed. */
  lemma SentMessageIsLogged(d: Draft, disabled: bool, st: Chat.ChatState, minted: Chat.Fresh)
    requires HandleSend(d, disabled).sent.Some?
    ensures var s := HandleSend(d, disabled).sent.value;
            var b := Chat.BeginSend(st, s.content, s.images, minted);
            && b.pending.Some?
            && |b.state.messages| == |st.messages| + 2
            && b.state.messages[|st.messages|].content == Text.Trim(d.text)
  {
    var s := HandleSend(d, disabled).sent.value;
    Text.TrimIdempotent(d.text);
    assert Chat.HasPayload(s.content, s.images);
  }

  /** `canSend` holds exactly when pressing Enter (without Shift) sends. */
  lemma EnterSendsExactlyWhenSendable(d: Draft, disabled: bool)
    ensures HandleKeyDown(d, disabled, "Enter", false).sent.Some? <==> CanSend(d, disabled)
    ensures HandleKeyDown(d, disabled, "Enter", true).sent.None?
  {
  }
}
