/**
 * The call controller of web/app.js.  Its module-level variables are the
 * members of `ControllerState`, held in the controller's `st`, and each
 * browser event the page reacts to is one method: button presses, the push-to-talk debounce timer, the socket's
 * open/message/close events, audio-processor callbacks, the video
 * recorder's data and stop events, and the end of the avatar waits.  What
 * the page sends goes to `outbox`, in order, except that the `/is_speaking`
 * polls of an avatar wait are recorded together when the wait returns.
 *
 * In a video call this controller records the turn with a `MediaRecorder`
 * and sends the recording as a multipart form.
 */
module BlobCallClient {
  import opened Wrappers
  import opened Text
  import opened InputArbiter
  import opened CallProtocol
  import opened SpeakingWait
  import Pcm

  /** The MIME type the recorder is created with, which the `complete` path's blob takes. */
  const RecorderMime: string := "video/webm; codecs=vp9"
  /** The type of the blob the `underway` path's `onstop` builds. */
  const UnderwayBlobType: string := "video/webm"

  /**
   * What the recorder's `onstop` does: the handler installed on `underway`
   * sends the text of the `underway` message; the one installed on
   * `complete` sends the recognised sentence.
   */
  datatype StopHandler = SendUnderwayText(underwayText: Option<string>) | SendRecognised(sentence: string)

  /** `videoRecorder`: whether it is recording, and its current `onstop`. */
  datatype Recorder = Recorder(recording: bool, onstop: StopHandler)

  /** A snapshot of every field of the controller. */
  datatype ControllerState = ControllerState(
    mode: InputMode,
    ui: Affordances,
    chatInput: string,
    debounces: nat,
    callActive: bool,
    ws: SocketState,
    mediaStream: bool,
    audioContext: bool,
    processor: bool,
    serverReady: bool,
    speaking: bool,
    recorder: Option<Recorder>,
    videoChunks: seq<seq<Pcm.byte>>,
    pendingStops: seq<StopHandler>,
    replyWaits: nat,
    outbox: seq<Effect>,
    orphans: seq<StopHandler>)

  /**
   * What the controller keeps true between events: the page shows the
   * current mode; a call mode, a socket, a recorder and an avatar wait in
   * progress all belong to an active call; the server is only ready on a
   * socket; and the avatar only counts as speaking while a wait is pending.
   */
  predicate Coherent(s: ControllerState) {
    && s.ui == AffordancesFor(s.mode)
    && (s.mode.IsCall() ==> s.callActive)
    && (s.ws != NoSocket ==> s.callActive)
    && (s.serverReady ==> s.ws != NoSocket)
    && (s.recorder.Some? ==> s.callActive)
    && (s.speaking ==> s.callActive && s.replyWaits > 0)
    && (s.orphans != [] ==> s.callActive && s.mediaStream)
  }

  function Initial(): ControllerState {
    ControllerState(Idle, AffordancesFor(Idle), "", 0, false, NoSocket, false, false, false,
      false, false, None, [], [], 0, [], [])
  }

  /**
   * The `onstop`s of every recorder still recording: `videoRecorder`, and
   * the recorders a later `underway` replaced without stopping them, which
   * go on recording the camera's stream (`orphans`).
   */
  function Live(s: ControllerState): seq<StopHandler> {
    StopRecorder(s.recorder) + s.orphans
  }

  /** The recorder's `onstop`s queued by stopping it, if it is recording. */
  function StopRecorder(r: Option<Recorder>): seq<StopHandler> {
    if r.Some? && r.value.recording then [r.value.onstop] else []
  }

  /**
   * `stopCall` on an active call: `'stop'` is sent only on an open socket,
   * a recording recorder is stopped (its `onstop` queued), every resource
   * is released (`cleanupCallResources`), which ends the camera's tracks and
   * so every replaced recorder still recording, and the mode returns to none.
   */
  function Stopped(s: ControllerState): (t: ControllerState)
    ensures !t.callActive && t.mode == Idle && t.ws == NoSocket && t.recorder == None && t.videoChunks == []
    ensures !t.serverReady && !t.speaking && !t.mediaStream && !t.audioContext && !t.processor
    ensures t.outbox == s.outbox + (if s.ws == Open then [SocketText("stop")] else [])
    ensures t.pendingStops == s.pendingStops + StopRecorder(s.recorder) + s.orphans
    ensures |t.pendingStops| == |s.pendingStops| + (if s.recorder.Some? && s.recorder.value.recording then 1 else 0) + |s.orphans|
    ensures t.pendingStops == s.pendingStops + Live(s) && Live(t) == []
    ensures t.chatInput == s.chatInput && t.replyWaits == s.replyWaits && t.debounces == s.debounces
  {
    s.(callActive := false, mode := Idle, ui := AffordancesFor(Idle),
       ws := NoSocket, mediaStream := false, audioContext := false, processor := false,
       recorder := None, videoChunks := [], serverReady := false, speaking := false,
       pendingStops := s.pendingStops + StopRecorder(s.recorder) + s.orphans, orphans := [],
       outbox := s.outbox + (if s.ws == Open then [SocketText("stop")] else []))
  }

  /** `startCall` without a call: the call is active in its mode and a socket is connecting. */
  function CallStarted(s: ControllerState, t: CallType): (r: ControllerState)
    ensures r.callActive && r.mode == CallMode(t) && r.ws == Connecting && r.outbox == s.outbox
  {
    s.(callActive := true, mode := CallMode(t), ui := AffordancesFor(CallMode(t)), ws := Connecting)
  }

  /** The `ws.onmessage` switch, for a message arriving on the open socket. */
  function OnMessage(s: ControllerState, m: Inbound, sessionId: Option<int>): ControllerState {
    match m
    case Started => s.(serverReady := true)
    case Underway(text) => OnUnderway(s, text)
    case Complete(text) => OnComplete(s, text, sessionId)
    case ErrorReport(_) => s
    case Unrecognised => s
  }

  /**
   * `underway`: in a video call with a camera, the chunks are dropped and a
   * new recording starts.  The recorder it replaces is not stopped: if it
   * was still recording it goes on, with its `onstop`, among the orphans.
   */
  function OnUnderway(s: ControllerState, text: Option<string>): ControllerState {
    if s.mode == VideoCall && s.mediaStream then
      s.(videoChunks := [], recorder := Some(Recorder(true, SendUnderwayText(text))),
         orphans := s.orphans + StopRecorder(s.recorder))
    else s
  }

  /**
   * `underway` in a video call with a camera starts one more recording,
   * with the `underway` text's `onstop`, on an emptied chunk list; every
   * recorder that was recording still is, and nothing is sent or queued.
   * Otherwise nothing changes.
   */
  lemma UnderwayStartsRecording(s: ControllerState, text: Option<string>)
    ensures var t := OnUnderway(s, text);
      if s.mode == VideoCall && s.mediaStream then
        && t.recorder == Some(Recorder(true, SendUnderwayText(text))) && t.videoChunks == []
        && multiset(Live(t)) == multiset(Live(s)) + multiset{SendUnderwayText(text)}
        && t.outbox == s.outbox && t.pendingStops == s.pendingStops
      else t == s
  {
    if s.mode == VideoCall && s.mediaStream {
      var t := OnUnderway(s, text);
      assert Live(t) == [SendUnderwayText(text)] + (s.orphans + StopRecorder(s.recorder));
    }
  }

  /**
   * No recording loses its `onstop`: a message only adds to the queued
   * `onstop`s, and each recorder is either still recording or has its
   * `onstop` queued, the one `underway` starts being the only new one.
   * With `Stopped` queueing every recorder still recording, each recording
   * a call started posts exactly once its `onstop` has run.
   */
  lemma NoRecordingLost(s: ControllerState, m: Inbound, sessionId: Option<int>)
    ensures var t := OnMessage(s, m, sessionId);
      && s.pendingStops <= t.pendingStops
      && |t.pendingStops| + |Live(t)|
         == |s.pendingStops| + |Live(s)| + (if m.Underway? && s.mode == VideoCall && s.mediaStream then 1 else 0)
  {
    match m
    case Underway(text) =>
      UnderwayStartsRecording(s, text);
    case _ =>
  }

  /**
   * `complete`: without text, or while the avatar speaks, a video call's
   * recording is only stopped; otherwise the sentence goes out, by the
   * recorder's new `onstop` when a video call is recording and as JSON at
   * once otherwise, and the avatar counts as speaking until its waits end.
   * It stops at most the current recording, queueing its `onstop`, and
   * leaves the replaced recorders alone.
   */
  function OnComplete(s: ControllerState, text: Option<string>, sessionId: Option<int>): (t: ControllerState)
    ensures t.orphans == s.orphans && s.pendingStops <= t.pendingStops
    ensures |t.pendingStops| + |StopRecorder(t.recorder)| == |s.pendingStops| + |StopRecorder(s.recorder)|
  {
    if !HasText(text) || s.speaking then
      if s.mode == VideoCall then
        s.(pendingStops := s.pendingStops + StopRecorder(s.recorder),
           recorder := if s.recorder.Some? then Some(s.recorder.value.(recording := false)) else None)
      else s
    else if s.mode == VideoCall && s.recorder.Some? && s.recorder.value.recording then
      s.(recorder := Some(Recorder(false, SendRecognised(text.value))),
         pendingStops := s.pendingStops + [SendRecognised(text.value)],
         speaking := true, replyWaits := s.replyWaits + 1)
    else
      s.(outbox := s.outbox + [PostHuman(ChatRequest(text, sessionId, NoMedia))],
         speaking := true, replyWaits := s.replyWaits + 1)
  }

  /** What a queued `onstop` sends when it runs in state `s`. */
  function StopSends(s: ControllerState, h: StopHandler, sessionId: Option<int>): seq<Effect> {
    match h
    case SendUnderwayText(text) =>
      [PostHumanForm(RecordingForm(text, sessionId, s.videoChunks, UnderwayBlobType))]
    case SendRecognised(text) =>
      // `videoRecorder.mimeType` throws once cleanup has dropped the recorder.
      if s.recorder.Some? then [PostHumanForm(RecordingForm(Some(text), sessionId, s.videoChunks, RecorderMime))]
      else []
  }

  /**
   * A `complete` without text, or one that arrives while the avatar is
   * speaking, sends nothing and starts no wait; in a video call it only
   * stops a running recording, whose `onstop` from `underway` is queued.
   */
  lemma CompleteWithoutTextSendsNothing(s: ControllerState, text: Option<string>, sessionId: Option<int>)
    requires !HasText(text) || s.speaking
    ensures var t := OnMessage(s, Complete(text), sessionId);
      && t.outbox == s.outbox && t.speaking == s.speaking && t.replyWaits == s.replyWaits
      && t.pendingStops == s.pendingStops + (if s.mode == VideoCall then StopRecorder(s.recorder) else [])
      && t.recorder.Some? == s.recorder.Some?
      && (t.recorder.Some? ==>
            t.recorder.value.onstop == s.recorder.value.onstop
            && t.recorder.value.recording == (s.recorder.value.recording && s.mode != VideoCall))
      && t == s.(pendingStops := t.pendingStops, recorder := t.recorder)
  {
  }

  /**
   * Any other `complete` sends the sentence exactly once: at once as JSON
   * in a voice call or without a recording, or, with a recording running in
   * a video call, by the `onstop` it installs and queues.  Either way the
   * avatar counts as speaking and one more wait is pending.
   */
  lemma CompleteSendsOnce(s: ControllerState, text: Option<string>, sessionId: Option<int>)
    requires HasText(text) && !s.speaking
    ensures var t := OnMessage(s, Complete(text), sessionId);
      && t.speaking && t.replyWaits == s.replyWaits + 1
      && (if s.mode == VideoCall && s.recorder.Some? && s.recorder.value.recording then
            t.outbox == s.outbox && t.pendingStops == s.pendingStops + [SendRecognised(text.value)]
            && t.recorder == Some(Recorder(false, SendRecognised(text.value)))
          else
            t.outbox == s.outbox + [PostHuman(ChatRequest(text, sessionId, NoMedia))]
            && t.pendingStops == s.pendingStops)
  {
    if s.mode == VideoCall && s.recorder.Some? && s.recorder.value.recording {
    } else {
    }
  }

  /**
   * A queued `onstop` posts the chunks collected so far as one multipart
   * form, whose session id field is the text of the parsed id.  The handler
   * installed by `underway` always posts, with the text of the `underway`
   * message; the server sends none, so the form's text is the string
   * `"undefined"`.  The handler installed by `complete` posts the recognised
   * sentence under the recorder's MIME type, but only while the recorder has
   * not been released: afterwards it throws and posts nothing.
   */
  lemma StopPostsRecording(s: ControllerState, h: StopHandler, sessionId: Option<int>)
    ensures var sent := StopSends(s, h, sessionId);
      && |sent| <= 1
      && (sent != [] <==> h.SendUnderwayText? || s.recorder.Some?)
      && (sent != [] ==>
            sent[0].PostHumanForm? && sent[0].form.video == s.videoChunks
            && sent[0].form.kind == "chat" && sent[0].form.interrupt == "true"
            && (sent[0].form.sessionId == "NaN" <==> sessionId.None?)
            && (sessionId.Some? ==> NumeralValue(sent[0].form.sessionId) == sessionId.value))
      && (h == SendUnderwayText(None) ==> sent[0].form.text == "undefined" && sent[0].form.mime == UnderwayBlobType)
      && (h.SendRecognised? && sent != [] ==> sent[0].form.text == h.sentence && sent[0].form.mime == RecorderMime)
  {
    NumberTextRoundTrip(sessionId);
  }

  /**
   * The controller.  `st` holds the module-level variables of web/app.js,
   * one member each (see `ControllerState`); every event handler is a
   * method that updates them.
   */
  class Controller {
    /** The `sessionid` field's value after `parseInt`; absent for `NaN`. */
    const sessionId: Option<int>
    var st: ControllerState

    predicate Valid()
      reads this
    {
      Coherent(st)
    }

    constructor(sessionId: Option<int>)
      ensures this.sessionId == sessionId
      ensures st == Initial() && Valid()
    {
      this.sessionId := sessionId;
      st := Initial();
    }

    /** `updateInputMode`: the mode and the controls the page shows for it. */
    method UpdateInputMode(m: InputMode)
      modifies this
      ensures st == old(st).(mode := m, ui := AffordancesFor(m))
    {
      st := st.(mode := m, ui := AffordancesFor(m));
    }

    /** `startVoiceRecording` (button pressed): enters push-to-talk, only from no mode. */
    method StartVoiceRecording()
      requires Valid()
      modifies this
      ensures Valid()
      ensures old(st.mode) == Idle ==> st == old(st).(mode := PushToTalk, ui := AffordancesFor(PushToTalk))
      ensures old(st.mode) != Idle ==> st == old(st)
    {
      if st.mode != Idle {
        return;
      }
      UpdateInputMode(PushToTalk);
    }

    /** `stopVoiceRecording` (button released or left): starts a 300 ms timer, only in push-to-talk. */
    method StopVoiceRecording()
      requires Valid()
      modifies this
      ensures Valid()
      ensures old(st.mode) == PushToTalk ==> st == old(st).(debounces := old(st.debounces) + 1)
      ensures old(st.mode) != PushToTalk ==> st == old(st)
    {
      if st.mode != PushToTalk {
        return;
      }
      st := st.(debounces := st.debounces + 1);
    }

    /** The recognition result or the user's typing replacing the chat input. */
    method SetChatInput(text: string)
      requires Valid()
      modifies this
      ensures Valid()
      ensures st == old(st).(chatInput := text)
    {
      st := st.(chatInput := text);
    }

    /**
     * A push-to-talk timer firing: sends the trimmed input once if it is not
     * empty, and then clears it; the mode returns to none in any case, even
     * if a call started meanwhile.
     */
    method DebounceExpired()
      requires Valid()
      modifies this
      ensures Valid()
      ensures old(st.debounces) == 0 ==> st == old(st)
      ensures old(st.debounces) > 0 && Strip(JavaScript, old(st.chatInput)) == "" ==>
        st == old(st).(debounces := old(st.debounces) - 1, mode := Idle, ui := AffordancesFor(Idle))
      ensures old(st.debounces) > 0 && Strip(JavaScript, old(st.chatInput)) != "" ==>
        st == old(st).(debounces := old(st.debounces) - 1, mode := Idle, ui := AffordancesFor(Idle), chatInput := "",
          outbox := old(st.outbox) + [PostHuman(ChatRequest(Some(Strip(JavaScript, old(st.chatInput))), sessionId, NoMedia))])
    {
      if st.debounces == 0 {
        return;
      }
      var recognized := Strip(JavaScript, st.chatInput);
      if recognized != "" {
        st := st.(debounces := st.debounces - 1, mode := Idle, ui := AffordancesFor(Idle), chatInput := "",
          outbox := st.outbox + [PostHuman(ChatRequest(Some(recognized), sessionId, NoMedia))]);
      } else {
        st := st.(debounces := st.debounces - 1, mode := Idle, ui := AffordancesFor(Idle));
      }
    }

    /**
     * The chat form's submit: sends the input as typed, untrimmed, unless it
     * is blank, and clears it.  A disabled form (during a call) cannot be
     * submitted.
     */
    method SubmitChatForm()
      requires Valid()
      modifies this
      ensures Valid()
      ensures old(st.ui.chatFormDisabled) || Strip(JavaScript, old(st.chatInput)) == "" ==> st == old(st)
      ensures !old(st.ui.chatFormDisabled) && Strip(JavaScript, old(st.chatInput)) != "" ==>
        st == old(st).(chatInput := "",
          outbox := old(st.outbox) + [PostHuman(ChatRequest(Some(old(st.chatInput)), sessionId, NoMedia))])
    {
      if st.ui.chatFormDisabled || Strip(JavaScript, st.chatInput) == "" {
        return;
      }
      st := st.(outbox := st.outbox + [PostHuman(ChatRequest(Some(st.chatInput), sessionId, NoMedia))], chatInput := "");
    }

    /** `startCall`: a no-op during a call; otherwise the call becomes active in its mode and a socket starts connecting. */
    method StartCall(t: CallType)
      requires Valid()
      modifies this
      ensures Valid()
      ensures old(st.callActive) ==> st == old(st)
      ensures !old(st.callActive) ==> st == CallStarted(old(st), t)
    {
      if st.callActive {
        return;
      }
      st := st.(callActive := true);
      UpdateInputMode(CallMode(t));
      st := st.(ws := Connecting);
    }

    /**
     * `getUserMedia` resolving: the stream, audio context and processor are
     * set, even when the call was stopped meanwhile.
     */
    method MediaAcquired()
      requires Valid()
      modifies this
      ensures Valid()
      ensures st == old(st).(mediaStream := true, audioContext := true, processor := true)
    {
      st := st.(mediaStream := true, audioContext := true, processor := true);
    }

    /**
     * `cleanupCallResources`: drops every call resource and resets both
     * flags.  Ending the camera's tracks stops the replaced recorders still
     * recording, whose `onstop`s are queued.
     */
    method Cleanup()
      modifies this
      ensures st == old(st).(ws := NoSocket, mediaStream := false, audioContext := false,
        processor := false, recorder := None, videoChunks := [], serverReady := false, speaking := false,
        pendingStops := old(st.pendingStops) + old(st.orphans), orphans := [])
    {
      st := st.(processor := false, mediaStream := false, pendingStops := st.pendingStops + st.orphans, orphans := []);
      st := st.(audioContext := false, ws := NoSocket, recorder := None);
      st := st.(videoChunks := []);
      st := st.(serverReady := false, speaking := false);
    }

    /**
     * `stopCall`, also run by a call button during a call, by a failed
     * `getUserMedia`, by the socket's `onerror` and on page unload: a no-op
     * without a call, so a second call changes nothing.
     */
    method StopCall()
      requires Valid()
      modifies this
      ensures Valid() && !st.callActive
      ensures !old(st.callActive) ==> st == old(st)
      ensures old(st.callActive) ==> st == Stopped(old(st))
    {
      if !st.callActive {
        return;
      }
      var said := if st.ws == Open then [SocketText("stop")] else [];
      st := st.(callActive := false, outbox := st.outbox + said, pendingStops := st.pendingStops + StopRecorder(st.recorder));
      Cleanup();
      UpdateInputMode(Idle);
    }

    /** A click on the voice- or video-call button: stops any call, else starts one of its type. */
    method CallButtonClicked(t: CallType)
      requires Valid()
      modifies this
      ensures Valid()
      ensures old(st.callActive) ==> st == Stopped(old(st))
      ensures !old(st.callActive) ==> st == CallStarted(old(st), t)
    {
      if st.callActive {
        StopCall();
      } else {
        StartCall(t);
      }
    }

    /** `ws.onopen`: the socket is open and `'start'` is sent. */
    method SocketOpened()
      requires Valid()
      modifies this
      ensures Valid()
      ensures old(st.ws) != Connecting ==> st == old(st)
      ensures old(st.ws) == Connecting ==> st == old(st).(ws := Open, outbox := old(st.outbox) + [SocketText("start")])
    {
      if st.ws != Connecting {
        return;
      }
      st := st.(ws := Open, outbox := st.outbox + [SocketText("start")]);
    }

    /**
     * `ws.onclose` of the socket in `ws` (`own`) or of an earlier call's
     * socket: stops the call that is active, whichever it is.
     */
    method SocketClosed(own: bool)
      requires Valid()
      modifies this
      ensures Valid()
      ensures !old(st.callActive) ==> st == old(st)
      ensures old(st.callActive) ==> st == Stopped(old(st).(ws := if own then Closed else old(st.ws)))
    {
      if own && st.ws != NoSocket {
        st := st.(ws := Closed);
      }
      if st.callActive {
        StopCall();
      }
    }

    /** `ws.onmessage`; messages arrive only on the open socket. */
    method SocketMessage(m: Inbound)
      requires Valid()
      modifies this
      ensures Valid()
      ensures old(st.ws) != Open ==> st == old(st)
      ensures old(st.ws) == Open ==> st == OnMessage(old(st), m, sessionId)
    {
      if st.ws != Open {
        return;
      }
      match m {
        case Started =>
          st := st.(serverReady := true);
        case Underway(text) =>
          HandleUnderway(text);
        case Complete(text) =>
          HandleComplete(text);
        case ErrorReport(_) =>
        case Unrecognised =>
      }
    }

    /** The `underway` case of `ws.onmessage`. */
    method HandleUnderway(text: Option<string>)
      requires Valid() && st.ws == Open
      modifies this
      ensures Valid()
      ensures st == OnUnderway(old(st), text)
    {
      if st.mode == VideoCall && st.mediaStream {
        st := st.(videoChunks := [], recorder := Some(Recorder(true, SendUnderwayText(text))),
          orphans := st.orphans + StopRecorder(st.recorder));
      }
    }

    /** The `complete` case of `ws.onmessage`, up to the avatar waits (`ReplyWaitReturns`). */
    method HandleComplete(text: Option<string>)
      requires Valid() && st.ws == Open
      modifies this
      ensures Valid()
      ensures st == OnComplete(old(st), text, sessionId)
    {
      if !HasText(text) || st.speaking {
        if st.mode == VideoCall {
          st := st.(pendingStops := st.pendingStops + StopRecorder(st.recorder),
            recorder := if st.recorder.Some? then Some(st.recorder.value.(recording := false)) else None);
        }
      } else if st.mode == VideoCall && st.recorder.Some? && st.recorder.value.recording {
        st := st.(recorder := Some(Recorder(false, SendRecognised(text.value))),
          pendingStops := st.pendingStops + [SendRecognised(text.value)],
          speaking := true, replyWaits := st.replyWaits + 1);
      } else {
        st := st.(outbox := st.outbox + [PostHuman(ChatRequest(text, sessionId, NoMedia))],
          speaking := true, replyWaits := st.replyWaits + 1);
      }
    }

    /**
     * `processor.onaudioprocess`: the samples are converted and sent only
     * when the call is active, the avatar is not speaking, the server has
     * said `started` and the socket is open.
     */
    method AudioProcess(input: seq<real>)
      requires Valid()
      modifies this
      ensures Valid()
      ensures st == old(st).(outbox := old(st.outbox) + AudioSent(old(st.callActive), old(st.speaking), old(st.serverReady), old(st.ws), input))
    {
      if !st.callActive || st.speaking {
        assert st.outbox + [] == st.outbox;
        return;
      }
      var samples := Pcm.ConvertAudioData(input);
      if st.serverReady && st.ws == Open {
        st := st.(outbox := st.outbox + [SocketBinary(Pcm.EncodePcm(samples))]);
      } else {
        assert st.outbox + [] == st.outbox;
      }
    }

    /** The recorder's `ondataavailable`: a non-empty part joins `videoChunks`. */
    method RecorderData(part: seq<Pcm.byte>)
      requires Valid()
      modifies this
      ensures Valid()
      ensures st == old(st).(videoChunks := old(st.videoChunks) + if |part| > 0 then [part] else [])
    {
      if |part| > 0 {
        st := st.(videoChunks := st.videoChunks + [part]);
      } else {
        assert st.videoChunks + [] == st.videoChunks;
      }
    }

    /** The next queued `onstop` running: it sends what its handler sends in the state at that time. */
    method RecorderStopped()
      requires Valid()
      modifies this
      ensures Valid()
      ensures old(st.pendingStops) == [] ==> st == old(st)
      ensures old(st.pendingStops) != [] ==> st == old(st).(pendingStops := old(st.pendingStops)[1..],
        outbox := old(st.outbox) + StopSends(old(st), old(st.pendingStops)[0], sessionId))
    {
      if st.pendingStops == [] {
        return;
      }
      var h := st.pendingStops[0];
      var sends := StopSends(st, h, sessionId);
      st := st.(pendingStops := st.pendingStops[1..], outbox := st.outbox + sends);
    }

    /**
     * The oldest pending `complete` handler resuming after its avatar waits,
     * which end as `ReplyWait(polls)` says: its polls are recorded and the
     * avatar no longer counts as speaking.  While the waits are still polling
     * nothing changes.
     */
    method ReplyWaitReturns(polls: seq<Poll>)
      requires Valid()
      modifies this
      ensures Valid()
      ensures old(st.replyWaits) == 0 || ReplyWait(polls).Polling? ==> st == old(st)
      ensures old(st.replyWaits) > 0 && ReplyWait(polls).Returned? ==>
        st == old(st).(speaking := false, replyWaits := old(st.replyWaits) - 1,
          outbox := old(st.outbox) + Polls(sessionId, ReplyWait(polls).used))
    {
      if st.replyWaits == 0 {
        return;
      }
      var w := AwaitReply(polls);
      if w.Polling? {
        return;
      }
      st := st.(outbox := st.outbox + Polls(sessionId, w.used), speaking := false, replyWaits := st.replyWaits - 1);
    }
  }

  /** The transcript ` hi\n` trims to `hi`, as `String.prototype.trim` does. */
  lemma StripExample()
    ensures Strip(JavaScript, " hi\n") == "hi"
  {
    assert IsSpace(JavaScript, ' ') && !IsSpace(JavaScript, 'h');
    assert " hi\n"[1..] == "hi\n";
    assert TrimStart(JavaScript, "hi\n") == "hi\n";
    assert TrimStart(JavaScript, " hi\n") == "hi\n";
    assert IsSpace(JavaScript, '\n') && !IsSpace(JavaScript, 'i');
    assert "hi\n"[..2] == "hi";
    assert TrimEnd(JavaScript, "hi") == "hi";
    assert TrimEnd(JavaScript, "hi\n") == "hi";
  }

  /** A call of type `t` just set up: the socket is open, `start` was sent and the media are in place. */
  method CallOpened(sid: Option<int>, t: CallType) returns (c: Controller)
    ensures fresh(c) && c.Valid() && c.sessionId == sid
    ensures c.st == ControllerState(CallMode(t), AffordancesFor(CallMode(t)), "", 0, true, Open, true, true, true,
      false, false, None, [], [], 0, [SocketText("start")], [])
  {
    c := new Controller(sid);
    c.CallButtonClicked(t);
    assert c.st == ControllerState(CallMode(t), AffordancesFor(CallMode(t)), "", 0, true, Connecting, false, false, false,
      false, false, None, [], [], 0, [], []);
    c.SocketOpened();
    c.MediaAcquired();
  }

  /** A video call whose server is ready, after `underway` started a recording that has captured `part`. */
  method VideoRecording(sid: Option<int>, part: seq<Pcm.byte>) returns (c: Controller)
    requires part != []
    ensures fresh(c) && c.Valid() && c.sessionId == sid
    ensures c.st == ControllerState(VideoCall, AffordancesFor(VideoCall), "", 0, true, Open, true, true, true,
      true, false, Some(Recorder(true, SendUnderwayText(None))), [part], [], 0, [SocketText("start")], [])
  {
    c := CallOpened(sid, Video);
    c.SocketMessage(Started);
    assert c.st == ControllerState(VideoCall, AffordancesFor(VideoCall), "", 0, true, Open, true, true, true,
      true, false, None, [], [], 0, [SocketText("start")], []);
    c.SocketMessage(Underway(None));
    assert c.st == ControllerState(VideoCall, AffordancesFor(VideoCall), "", 0, true, Open, true, true, true,
      true, false, Some(Recorder(true, SendUnderwayText(None))), [], [], 0, [SocketText("start")], []);
    c.RecorderData(part);
  }

  /**
   * The start of a voice call turn: nothing is sent before the server says
   * `started`, each audio callback after it sends one binary frame, and the
   * recognised sentence is posted once.
   */
  method VoiceCallTurn(sid: Option<int>, early: seq<real>, heard: seq<real>, sentence: string)
    returns (sent: seq<Effect>)
    requires sentence != ""
    ensures sent == [SocketText("start"), SocketBinary(Pcm.EncodePcm(Pcm.Converted(heard))),
      PostHuman(ChatRequest(Some(sentence), sid, NoMedia))]
  {
    var c := CallOpened(sid, Voice);
    c.AudioProcess(early);
    c.SocketMessage(Started);
    assert c.st == ControllerState(VoiceCall, AffordancesFor(VoiceCall), "", 0, true, Open, true, true, true,
      true, false, None, [], [], 0, [SocketText("start")], []);
    c.AudioProcess(heard);
    var frame := SocketBinary(Pcm.EncodePcm(Pcm.Converted(heard)));
    assert c.st == ControllerState(VoiceCall, AffordancesFor(VoiceCall), "", 0, true, Open, true, true, true,
      true, false, None, [], [], 0, [SocketText("start"), frame], []);
    c.SocketMessage(Underway(None));
    c.SocketMessage(Complete(Some(sentence)));
    sent := c.st.outbox;
  }

  /**
   * While the avatar speaks the microphone's audio is dropped; once both
   * waits have returned it flows again, and hanging up sends `'stop'`.
   */
  method SpeakingMutesAudio(sid: Option<int>, sentence: string, spoken: seq<real>, heard: seq<real>)
    returns (sent: seq<Effect>)
    requires sentence != ""
    ensures sent == [SocketText("start"), PostHuman(ChatRequest(Some(sentence), sid, NoMedia)),
      PollSpeaking(sid), PollSpeaking(sid), SocketBinary(Pcm.EncodePcm(Pcm.Converted(heard))), SocketText("stop")]
  {
    var c := ReplyHeard(sid, sentence, spoken);
    c.AudioProcess(heard);
    var request := PostHuman(ChatRequest(Some(sentence), sid, NoMedia));
    var frame := SocketBinary(Pcm.EncodePcm(Pcm.Converted(heard)));
    assert c.st == ControllerState(VoiceCall, AffordancesFor(VoiceCall), "", 0, true, Open, true, true, true,
      true, false, None, [], [], 0, [SocketText("start"), request, PollSpeaking(sid), PollSpeaking(sid), frame], []);
    c.CallButtonClicked(Voice);
    sent := c.st.outbox;
  }

  /**
   * A voice call in which `sentence` was posted and the avatar spoke it:
   * `spoken`, captured meanwhile, was dropped, and both waits have returned.
   */
  method ReplyHeard(sid: Option<int>, sentence: string, spoken: seq<real>) returns (c: Controller)
    requires sentence != ""
    ensures fresh(c) && c.Valid() && c.sessionId == sid
    ensures c.st == ControllerState(VoiceCall, AffordancesFor(VoiceCall), "", 0, true, Open, true, true, true,
      true, false, None, [], [], 0,
      [SocketText("start"), PostHuman(ChatRequest(Some(sentence), sid, NoMedia)), PollSpeaking(sid), PollSpeaking(sid)], [])
  {
    c := CallOpened(sid, Voice);
    c.SocketMessage(Started);
    c.SocketMessage(Complete(Some(sentence)));
    var request := PostHuman(ChatRequest(Some(sentence), sid, NoMedia));
    assert c.st == ControllerState(VoiceCall, AffordancesFor(VoiceCall), "", 0, true, Open, true, true, true,
      true, true, None, [], [], 1, [SocketText("start"), request], []);
    c.AudioProcess(spoken);
    assert ReplyWait([Answered(true), Answered(false)]) == Returned(true, 2) by {
      assert StartWait([Answered(true), Answered(false)]) == Returned(true, 1);
      assert [Answered(true), Answered(false)][1..] == [Answered(false)];
    }
    c.ReplyWaitReturns([Answered(true), Answered(false)]);
  }

  /**
   * A video call turn: `underway` starts a recording, `complete` replaces
   * its `onstop` and stops it, and the stop event sends the sentence with
   * the recorded parts as a `video/webm; codecs=vp9` blob.
   */
  method VideoCallTurn(sid: Option<int>, part: seq<Pcm.byte>, sentence: string) returns (sent: seq<Effect>)
    requires sentence != "" && part != []
    ensures sent == [SocketText("start"), PostHumanForm(RecordingForm(Some(sentence), sid, [part], RecorderMime))]
  {
    var c := VideoRecording(sid, part);
    c.SocketMessage(Complete(Some(sentence)));
    assert c.st == ControllerState(VideoCall, AffordancesFor(VideoCall), "", 0, true, Open, true, true, true,
      true, true, Some(Recorder(false, SendRecognised(sentence))), [part], [SendRecognised(sentence)], 1,
      [SocketText("start")], []);
    c.RecorderStopped();
    sent := c.st.outbox;
  }

  /**
   * A `complete` with empty text in a video call stops the recording with
   * the `onstop` installed by `underway` still in place, which posts the
   * recording with the text `"undefined"`: the `underway` message has no
   * text, and `FormData` writes the missing value as that string.
   */
  method EmptyCompletePostsRecording(sid: Option<int>, part: seq<Pcm.byte>) returns (sent: seq<Effect>)
    requires part != []
    ensures sent == [SocketText("start"), PostHumanForm(RecordingForm(None, sid, [part], UnderwayBlobType))]
    ensures sent[1].form.text == "undefined" && sent[1].form.video == [part]
  {
    var c := EmptyCompleteStopsRecording(sid, part);
    c.RecorderStopped();
    sent := c.st.outbox;
  }

  /** A video call recording `part` when a `complete` with empty text arrives: the recording is stopped and its `onstop` queued. */
  method EmptyCompleteStopsRecording(sid: Option<int>, part: seq<Pcm.byte>) returns (c: Controller)
    requires part != []
    ensures fresh(c) && c.Valid() && c.sessionId == sid
    ensures c.st == ControllerState(VideoCall, AffordancesFor(VideoCall), "", 0, true, Open, true, true, true,
      true, false, Some(Recorder(false, SendUnderwayText(None))), [part], [SendUnderwayText(None)], 0,
      [SocketText("start")], [])
  {
    c := VideoRecording(sid, part);
    c.SocketMessage(Complete(Some("")));
  }

  /** A video call in which a second `underway` has replaced a recorder that was still recording. */
  method SecondRecording(sid: Option<int>, part: seq<Pcm.byte>) returns (c: Controller)
    requires part != []
    ensures fresh(c) && c.Valid() && c.sessionId == sid
    ensures c.st == ControllerState(VideoCall, AffordancesFor(VideoCall), "", 0, true, Open, true, true, true,
      true, false, Some(Recorder(true, SendUnderwayText(None))), [], [], 0, [SocketText("start")],
      [SendUnderwayText(None)])
  {
    c := VideoRecording(sid, part);
    c.SocketMessage(Unrecognised);
    c.SocketMessage(Underway(None));
  }

  /**
   * Two `underway`s in one video call, as when an error report has emptied
   * the server's partial text in between: the first recorder goes on
   * recording, and hanging up ends both, so both `onstop`s post, each with
   * the text `"undefined"` and the chunks collected at that time, which
   * cleanup has emptied.
   */
  method SecondUnderwayPostsTwice(sid: Option<int>, part: seq<Pcm.byte>) returns (sent: seq<Effect>)
    requires part != []
    ensures var post := PostHumanForm(RecordingForm(None, sid, [], UnderwayBlobType));
      sent == [SocketText("start"), SocketText("stop"), post, post]
  {
    var c := SecondRecording(sid, part);
    c.CallButtonClicked(Video);
    assert c.st.pendingStops == [SendUnderwayText(None), SendUnderwayText(None)] && c.st.videoChunks == [];
    c.RecorderStopped();
    c.RecorderStopped();
    sent := c.st.outbox;
  }

  /** Push-to-talk pressed, the transcript ` hi\n` written, and the button released: the submit timer is armed. */
  method PushToTalkReleased(sid: Option<int>) returns (c: Controller)
    ensures fresh(c) && c.Valid() && c.sessionId == sid
    ensures c.st == ControllerState(PushToTalk, AffordancesFor(PushToTalk), " hi\n", 1, false, NoSocket, false, false, false,
      false, false, None, [], [], 0, [], [])
  {
    c := new Controller(sid);
    c.StartVoiceRecording();
    c.SetChatInput(" hi\n");
    c.StopVoiceRecording();
  }

  /**
   * Releasing push-to-talk and starting a call before the 300 ms timer
   * fires: the timer still sends the trimmed input and puts the page back
   * in no mode, with the call running and its buttons and chat form
   * enabled.
   */
  method DebounceDuringCall(sid: Option<int>) returns (mode: InputMode, ui: Affordances, callActive: bool, sent: seq<Effect>)
    ensures sent == [PostHuman(ChatRequest(Some("hi"), sid, NoMedia))]
    ensures callActive && mode == Idle && ui == AffordancesFor(Idle) && !ui.chatFormDisabled
  {
    var c := PushToTalkReleased(sid);
    c.CallButtonClicked(Voice);
    assert c.st == ControllerState(VoiceCall, AffordancesFor(VoiceCall), " hi\n", 1, true, Connecting, false, false, false,
      false, false, None, [], [], 0, [], []);
    StripExample();
    c.DebounceExpired();
    assert c.st == ControllerState(Idle, AffordancesFor(Idle), "", 0, true, Connecting, false, false, false,
      false, false, None, [], [], 0, [PostHuman(ChatRequest(Some("hi"), sid, NoMedia))], []);
    mode, ui, callActive, sent := c.st.mode, c.st.ui, c.st.callActive, c.st.outbox;
  }
}
