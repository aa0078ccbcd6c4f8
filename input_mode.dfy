/**
 * The browser's input-mode arbiter (`updateInputMode` in web/app.js and
 * web/app_images.js): one mode at a time among push-to-talk, voice call
 * and video call, and the page controls it enables.
 */
module InputArbiter {

  /** `currentInputMode`: `'none'`, `'pushToTalk'`, `'voiceCall'` or `'videoCall'`. */
  datatype InputMode = Idle | PushToTalk | VoiceCall | VideoCall {
    predicate IsCall() {
      this == VoiceCall || this == VideoCall
    }
  }

  /** The three input buttons. */
  datatype Button = VoiceRecordButton | VoiceCallButton | VideoCallButton

  /** The mode each button starts. */
  function ModeOf(b: Button): InputMode {
    match b
    case VoiceRecordButton => PushToTalk
    case VoiceCallButton => VoiceCall
    case VideoCallButton => VideoCall
  }

  /**
   * What the page shows for a mode: the `disabled-input` class of each
   * input button, and whether the chat form's button and text area are
   * disabled.
   */
  datatype Affordances = Affordances(
    voiceRecordDisabled: bool,
    voiceCallDisabled: bool,
    videoCallDisabled: bool,
    chatFormDisabled: bool)
  {
    predicate Disabled(b: Button) {
      match b
      case VoiceRecordButton => voiceRecordDisabled
      case VoiceCallButton => voiceCallDisabled
      case VideoCallButton => videoCallDisabled
    }
  }

  /**
   * The controls `updateInputMode(m)` leaves: a button is enabled exactly
   * when no mode is active or the active mode is its own, so at most one
   * is enabled while a mode is active; the chat form is disabled exactly
   * during a call.
   */
  function AffordancesFor(m: InputMode): (a: Affordances)
    ensures forall b :: !a.Disabled(b) <==> m == Idle || m == ModeOf(b)
    ensures m != Idle ==> forall b1, b2 :: !a.Disabled(b1) && !a.Disabled(b2) ==> b1 == b2
    ensures m == Idle ==> forall b :: !a.Disabled(b)
    ensures a.chatFormDisabled <==> m.IsCall()
  {
    Affordances(
      m != Idle && m != PushToTalk,
      m != Idle && m != VoiceCall,
      m != Idle && m != VideoCall,
      m == VoiceCall || m == VideoCall)
  }
}
