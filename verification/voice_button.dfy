/** The microphone button of src/components/VoiceButton.tsx: which callback a
    click invokes, when the button is disabled, and its accessible label. */
module VoiceButton {
  import opened VoiceRecorder

  /** Which prop a click calls. */
  datatype Dispatch = CallStop | CallStart | NoCall

  const StopLabel: string := "Stop recording"
  const StartLabel: string := "Start voice input"

  /** `handleClick`: stop while recording, otherwise start unless processing. */
  function HandleClick(s: RecordingState): (d: Dispatch)
    ensures d == CallStop <==> s == Recording
    ensures d == CallStart <==> s == Idle
    ensures d == NoCall <==> s == Processing
  {
    match s
    case Recording => CallStop
    case Idle => CallStart
    case Processing => NoCall
  }

  /** `disabled={disabled || isProcessing}`: off when the prop says so or a
      click would call nothing. */
  function Disabled(disabledProp: bool, s: RecordingState): (off: bool)
    ensures off <==> disabledProp || HandleClick(s) == NoCall
  {
    disabledProp || s == Processing
  }

  /** `aria-label={isRecording ? 'Stop recording' : 'Start voice input'}` */
  function AriaLabel(s: RecordingState): (text: string)
    ensures text == StopLabel <==> s == Recording
    ensures text == StartLabel <==> s != Recording
  {
    if s == Recording then StopLabel else StartLabel
  }

  /** The button is disabled exactly when the prop says so or a click would
      call nothing, and its label names the callback a click invokes. */
  lemma ButtonAgreesWithClick(disabledProp: bool, s: RecordingState)
    ensures Disabled(disabledProp, s) <==> disabledProp || HandleClick(s) == NoCall
    ensures AriaLabel(s) == StopLabel <==> HandleClick(s) == CallStop
    ensures !Disabled(disabledProp, s) ==> HandleClick(s) != NoCall
  {
  }
}
