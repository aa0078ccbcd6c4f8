/**
 * The call controller of web/app_images.js, the variant of web/app.js that
 * sends still frames instead of a recording.  Its module-level variables
 * are the members of `FrameState`, held in the controller's `st`; each
 * browser event is one method.  In a video call, `underway` starts a
 * one-second sampler that captures a JPEG data URL of the local video per
 * tick, and `complete` stops it and posts the sentence with the frames as
 * an `images` list.
 */
module FrameCallClient {
  import opened Wrappers
  import opened Text
  import opened InputArbiter
  import opened CallProtocol
  import opened SpeakingWait
  import Pcm

  /** The interval of the frame sampler, in milliseconds. */
  const SampleEveryMs: nat := 1000
  /** The `readyState` from which the local video has a frame to draw (`HAVE_CURRENT_DATA`). */
  const HaveCurrentData: nat := 2

  /**
   * A snapshot of the controller's variables.  `sampling` is whether
   * `frameCaptureInterval` holds a timer and `canvas` whether
   * `canvasContext` is set; `ticks` counts the sampler ticks since
   * `capturedFrames` was last emptied, which the page does not keep.
   */
  datatype FrameState = FrameState(
    mode: InputMode,
    ui: Affordances,
    chatInput: string,
    debounces: nat,
    callActive: bool,
    ws: SocketState,
    mediaStream: bool,
    audioContext: bool,
    processor: bool,
    serverReady: bool,
    speaking: bool,
    canvas: bool,
    sampling: bool,
    frames: seq<string>,
    ticks: nat,
    replyWaits: nat,
    outbox: seq<Effect>)

  /**
   * What the controller keeps true between events: as for web/app.js, and
   * a video call has a canvas, the sampler only runs with one, the canvas
   * belongs to an active call, and no more frames are held than sampler
   * ticks have happened since they were last emptied.
   */
  predicate Coherent(s: FrameState) {
    && s.ui == AffordancesFor(s.mode)
    && (s.mode.IsCall() ==> s.callActive)
    && (s.ws != NoSocket ==> s.callActive)
    && (s.serverReady ==> s.ws != NoSocket)
    && (s.speaking ==> s.callActive && s.replyWaits > 0)
    && (s.mode == VideoCall ==> s.canvas)
    && (s.sampling ==> s.canvas)
    && (s.canvas ==> s.callActive)
    && |s.frames| <= s.ticks
  }

  function Initial(): FrameState {
    FrameState(Idle, AffordancesFor(Idle), "", 0, false, NoSocket, false, false, false,
      false, false, false, false, [], 0, 0, [])
  }

  /**
   * `stopCall` on an active call: the sampler stops, `'stop'` is sent only
   * on an open socket, every resource is released and the mode returns to
   * none.  The captured frames are kept.
   */
  function Stopped(s: FrameState): FrameState {
    s.(callActive := false, mode := Idle, ui := AffordancesFor(Idle), sampling := false, canvas := false,
       ws := NoSocket, mediaStream := false, audioContext := false, processor := false,
       serverReady := false, speaking := false,
       outbox := s.outbox + (if s.ws == Open then [SocketText("stop")] else []))
  }

  /**
   * After `stopCall` nothing of the call is left: no mode, socket, sampler,
   * canvas or media, neither flag set; the frames are kept, and at most
   * `'stop'` was sent, only on an open socket.
   */
  lemma StoppedReleasesEverything(s: FrameState)
    ensures var t := Stopped(s);
      && !t.callActive && t.mode == Idle && t.ws == NoSocket && !t.sampling && !t.canvas
      && !t.serverReady && !t.speaking && !t.mediaStream && !t.audioContext && !t.processor
      && t.frames == s.frames && Coherent(t) == (|s.frames| <= s.ticks)
      && (t.outbox == s.outbox || (s.ws == Open && t.outbox == s.outbox + [SocketText("stop")]))
  {
  }

  /** `startCall` without a call: the call is active in its mode, a video call has a canvas, and a socket is connecting. */
  function CallStarted(s: FrameState, t: CallType): (r: FrameState)
    ensures r.callActive && r.mode == CallMode(t) && r.ws == Connecting && r.outbox == s.outbox
    ensures r.canvas <==> t == Video || s.canvas
  {
    s.(callActive := true, mode := CallMode(t), ui := AffordancesFor(CallMode(t)),
       canvas := t == Video || s.canvas, ws := Connecting)
  }

  /** The `ws.onmessage` switch, for a message arriving on the open socket. */
  function OnMessage(s: FrameState, m: Inbound, sessionId: Option<int>): FrameState {
    match m
    case Started => s.(serverReady := true)
    case Underway(_) => OnUnderway(s)
    case Complete(text) => OnComplete(s, text, sessionId)
    case ErrorReport(_) => s
    case Unrecognised => s
  }

  /** `underway`: in a video call with no sampler running, the frames are emptied and a sampler starts. */
  function OnUnderway(s: FrameState): FrameState {
    if s.mode == VideoCall && !s.sampling then s.(frames := [], ticks := 0, sampling := true) else s
  }

  /**
   * `complete`: the sampler stops first; without text, or while the avatar
   * speaks, the frames are dropped; otherwise the sentence is posted with
   * them and the avatar counts as speaking until its waits end.
   */
  function OnComplete(s: FrameState, text: Option<string>, sessionId: Option<int>): FrameState {
    if !HasText(text) || s.speaking then
      s.(sampling := false, frames := [], ticks := 0)
    else
      s.(sampling := false, frames := [], ticks := 0,
         outbox := s.outbox + [PostHuman(ChatRequest(text, sessionId, Frames(s.frames)))],
         speaking := true, replyWaits := s.replyWaits + 1)
  }

  /**
   * `complete` stops the sampler whatever it carries.  One without text, or
   * arriving while the avatar speaks, drops the frames and sends nothing;
   * any other sends exactly one request with the sentence and the frames in
   * capture order, and leaves no frames behind.
   */
  lemma CompleteSendsFramesOnce(s: FrameState, text: Option<string>, sessionId: Option<int>)
    ensures var t := OnComplete(s, text, sessionId);
      && !t.sampling && t.frames == []
      && (!HasText(text) || s.speaking ==> t.outbox == s.outbox && t.speaking == s.speaking)
      && (HasText(text) && !s.speaking ==>
            t.outbox == s.outbox + [PostHuman(ChatRequest(text, sessionId, Frames(s.frames)))]
            && t.speaking && t.replyWaits == s.replyWaits + 1)
  {
    if !HasText(text) || s.speaking {
    } else {
    }
  }

  /** An `underway` while the sampler runs changes nothing: the sampler is neither restarted nor emptied. */
  lemma UnderwayWhileSampling(s: FrameState)
    requires s.sampling
    ensures OnUnderway(s) == s
  {
  }

  /**
   * The controller.  `st` holds the module-level variables of
   * web/app_images.js, one member each (see `FrameState`).
   */
  class Controller {
    /** The `sessionid` field's value after `parseInt`; absent for `NaN`. */
    const sessionId: Option<int>
    var st: FrameState

    predicate Valid()
      reads this
    {
      Coherent(st)
    }

    constructor(sessionId: Option<int>)
      ensures this.sessionId == sessionId
      ensures st == Initial() && Valid()
    {
      this.sessionId := sessionId;
      st := Initial();
    }

    /** `updateInputMode`: the mode and the controls the page shows for it. */
    method UpdateInputMode(m: InputMode)
      modifies this
      ensures st == old(st).(mode := m, ui := AffordancesFor(m))
    {
      st := st.(mode := m, ui := AffordancesFor(m));
    }

    /** `startVoiceRecording` (button pressed): enters push-to-talk, only from no mode. */
    method StartVoiceRecording()
      requires Valid()
      modifies this
      ensures Valid()
      ensures old(st.mode) == Idle ==> st == old(st).(mode := PushToTalk, ui := AffordancesFor(PushToTalk))
      ensures old(st.mode) != Idle ==> st == old(st)
    {
      if st.mode != Idle {
        return;
      }
      UpdateInputMode(PushToTalk);
    }

    /** `stopVoiceRecording` (button released or left): starts a 300 ms timer, only in push-to-talk. */
    method StopVoiceRecording()
      requires Valid()
      modifies this
      ensures Valid()
      ensures old(st.mode) == PushToTalk ==> st == old(st).(debounces := old(st.debounces) + 1)
      ensures old(st.mode) != PushToTalk ==> st == old(st)
    {
      if st.mode != PushToTalk {
        return;
      }
      st := st.(debounces := st.debounces + 1);
    }

    /** The recognition result or the user's typing replacing the chat input. */
    method SetChatInput(text: string)
      requires Valid()
      modifies this
      ensures Valid()
      ensures st == old(st).(chatInput := text)
    {
      st := st.(chatInput := text);
    }

    /**
     * A push-to-talk timer firing: sends the trimmed input, with an empty
     * `images` list, once if it is not empty, and then clears it; the mode
     * returns to none in any case.
     */
    method DebounceExpired()
      requires Valid()
      modifies this
      ensures Valid()
      ensures old(st.debounces) == 0 ==> st == old(st)
      ensures old(st.debounces) > 0 && Strip(JavaScript, old(st.chatInput)) == "" ==>
        st == old(st).(debounces := old(st.debounces) - 1, mode := Idle, ui := AffordancesFor(Idle))
      ensures old(st.debounces) > 0 && Strip(JavaScript, old(st.chatInput)) != "" ==>
        st == old(st).(debounces := old(st.debounces) - 1, mode := Idle, ui := AffordancesFor(Idle), chatInput := "",
          outbox := old(st.outbox) + [PostHuman(ChatRequest(Some(Strip(JavaScript, old(st.chatInput))), sessionId, Frames([])))])
    {
      if st.debounces == 0 {
        return;
      }
      var recognized := Strip(JavaScript, st.chatInput);
      if recognized != "" {
        st := st.(debounces := st.debounces - 1, mode := Idle, ui := AffordancesFor(Idle), chatInput := "",
          outbox := st.outbox + [PostHuman(ChatRequest(Some(recognized), sessionId, Frames([])))]);
      } else {
        st := st.(debounces := st.debounces - 1, mode := Idle, ui := AffordancesFor(Idle));
      }
    }

    /**
     * The chat form's submit: sends the input as typed, with an empty
     * `images` list, unless it is blank, and clears it.  A disabled form
     * cannot be submitted.
     */
    method SubmitChatForm()
      requires Valid()
      modifies this
      ensures Valid()
      ensures old(st.ui.chatFormDisabled) || Strip(JavaScript, old(st.chatInput)) == "" ==> st == old(st)
      ensures !old(st.ui.chatFormDisabled) && Strip(JavaScript, old(st.chatInput)) != "" ==>
        st == old(st).(chatInput := "",
          outbox := old(st.outbox) + [PostHuman(ChatRequest(Some(old(st.chatInput)), sessionId, Frames([])))])
    {
      if st.ui.chatFormDisabled || Strip(JavaScript, st.chatInput) == "" {
        return;
      }
      st := st.(outbox := st.outbox + [PostHuman(ChatRequest(Some(st.chatInput), sessionId, Frames([])))], chatInput := "");
    }

    /**
     * `startCall`: a no-op during a call; otherwise the call becomes active
     * in its mode, a video call gets a canvas, and a socket starts
     * connecting.
     */
    method StartCall(t: CallType)
      requires Valid()
      modifies this
      ensures Valid()
      ensures old(st.callActive) ==> st == old(st)
      ensures !old(st.callActive) ==> st == CallStarted(old(st), t)
    {
      if st.callActive {
        return;
      }
      st := st.(callActive := true);
      UpdateInputMode(CallMode(t));
      if t == Video {
        st := st.(canvas := true);
      }
      st := st.(ws := Connecting);
    }

    /** `getUserMedia` resolving: the stream, audio context and processor are set. */
    method MediaAcquired()
      requires Valid()
      modifies this
      ensures Valid()
      ensures st == old(st).(mediaStream := true, audioContext := true, processor := true)
    {
      st := st.(mediaStream := true, audioContext := true, processor := true);
    }

    /**
     * `stopCall` together with the `cleanupCallResources` it ends with;
     * also run by a call button during a call, by a failed `getUserMedia`,
     * by the socket's `onerror` and on page unload: a no-op without a call.
     */
    method StopCall()
      requires Valid()
      modifies this
      ensures Valid() && !st.callActive
      ensures !old(st.callActive) ==> st == old(st)
      ensures old(st.callActive) ==> st == Stopped(old(st))
    {
      if !st.callActive {
        return;
      }
      var said := if st.ws == Open then [SocketText("stop")] else [];
      st := st.(sampling := false, callActive := false, outbox := st.outbox + said,
        canvas := false, processor := false, mediaStream := false, audioContext := false, ws := NoSocket,
        serverReady := false, speaking := false, mode := Idle, ui := AffordancesFor(Idle));
    }

    /** A click on the voice- or video-call button: stops any call, else starts one of its type. */
    method CallButtonClicked(t: CallType)
      requires Valid()
      modifies this
      ensures Valid()
      ensures old(st.callActive) ==> st == Stopped(old(st))
      ensures !old(st.callActive) ==> st == CallStarted(old(st), t)
    {
      if st.callActive {
        StopCall();
      } else {
        StartCall(t);
      }
    }

    /** `ws.onopen`: the socket is open and `'start'` is sent. */
    method SocketOpened()
      requires Valid()
      modifies this
      ensures Valid()
      ensures old(st.ws) != Connecting ==> st == old(st)
      ensures old(st.ws) == Connecting ==> st == old(st).(ws := Open, outbox := old(st.outbox) + [SocketText("start")])
    {
      if st.ws != Connecting {
        return;
      }
      st := st.(ws := Open, outbox := st.outbox + [SocketText("start")]);
    }

    /** `ws.onclose` of the current socket (`own`) or an earlier one: stops the active call. */
    method SocketClosed(own: bool)
      requires Valid()
      modifies this
      ensures Valid()
      ensures !old(st.callActive) ==> st == old(st)
      ensures old(st.callActive) ==> st == Stopped(old(st).(ws := if own then Closed else old(st.ws)))
    {
      if own && st.ws != NoSocket {
        st := st.(ws := Closed);
      }
      if st.callActive {
        StopCall();
      }
    }

    /** `ws.onmessage`; messages arrive only on the open socket. */
    method SocketMessage(m: Inbound)
      requires Valid()
      modifies this
      ensures Valid()
      ensures old(st.ws) != Open ==> st == old(st)
      ensures old(st.ws) == Open ==> st == OnMessage(old(st), m, sessionId)
    {
      if st.ws != Open {
        return;
      }
      match m {
        case Started =>
          st := st.(serverReady := true);
        case Underway(_) =>
          HandleUnderway();
        case Complete(text) =>
          HandleComplete(text);
        case ErrorReport(_) =>
        case Unrecognised =>
      }
    }

    /** The `underway` case of `ws.onmessage`. */
    method HandleUnderway()
      requires Valid() && st.ws == Open
      modifies this
      ensures Valid()
      ensures st == OnUnderway(old(st))
    {
      if st.mode == VideoCall && !st.sampling {
        st := st.(frames := [], ticks := 0, sampling := true);
      }
    }

    /** The `complete` case of `ws.onmessage`, up to the avatar waits (`ReplyWaitReturns`). */
    method HandleComplete(text: Option<string>)
      requires Valid() && st.ws == Open
      modifies this
      ensures Valid()
      ensures st == OnComplete(old(st), text, sessionId)
    {
      if !HasText(text) || st.speaking {
        st := st.(sampling := false, frames := [], ticks := 0);
      } else {
        st := st.(sampling := false, frames := [], ticks := 0,
          outbox := st.outbox + [PostHuman(ChatRequest(text, sessionId, Frames(st.frames)))],
          speaking := true, replyWaits := st.replyWaits + 1);
      }
    }

    /**
     * A sampler tick: while the sampler runs, one frame is appended exactly
     * when the local video's `readyState` is at least `HAVE_CURRENT_DATA`,
     * after the frames captured so far.
     */
    method SamplerTick(readyState: nat, frame: string)
      requires Valid()
      modifies this
      ensures Valid()
      ensures !old(st.sampling) ==> st == old(st)
      ensures old(st.sampling) ==> st == old(st).(ticks := old(st.ticks) + 1,
        frames := old(st.frames) + if readyState >= HaveCurrentData then [frame] else [])
    {
      if !st.sampling {
        return;
      }
      if readyState >= HaveCurrentData {
        st := st.(ticks := st.ticks + 1, frames := st.frames + [frame]);
      } else {
        st := st.(ticks := st.ticks + 1);
        assert st.frames + [] == st.frames;
      }
    }

    /** `processor.onaudioprocess`, gated as in web/app.js. */
    method AudioProcess(input: seq<real>)
      requires Valid()
      modifies this
      ensures Valid()
      ensures st == old(st).(outbox := old(st.outbox) + AudioSent(old(st.callActive), old(st.speaking), old(st.serverReady), old(st.ws), input))
    {
      if !st.callActive || st.speaking {
        assert st.outbox + [] == st.outbox;
        return;
      }
      var samples := Pcm.ConvertAudioData(input);
      if st.serverReady && st.ws == Open {
        st := st.(outbox := st.outbox + [SocketBinary(Pcm.EncodePcm(samples))]);
      } else {
        assert st.outbox + [] == st.outbox;
      }
    }

    /**
     * The oldest pending `complete` handler resuming after its avatar waits,
     * which end as `ReplyWait(polls)` says: its polls are recorded and the
     * avatar no longer counts as speaking.
     */
    method ReplyWaitReturns(polls: seq<Poll>)
      requires Valid()
      modifies this
      ensures Valid()
      ensures old(st.replyWaits) == 0 || ReplyWait(polls).Polling? ==> st == old(st)
      ensures old(st.replyWaits) > 0 && ReplyWait(polls).Returned? ==>
        st == old(st).(speaking := false, replyWaits := old(st.replyWaits) - 1,
          outbox := old(st.outbox) + Polls(sessionId, ReplyWait(polls).used))
    {
      if st.replyWaits == 0 {
        return;
      }
      var w := AwaitReply(polls);
      if w.Polling? {
        return;
      }
      st := st.(outbox := st.outbox + Polls(sessionId, w.used), speaking := false, replyWaits := st.replyWaits - 1);
    }
  }

  /** The start of `VideoCallTurn`: a video call with its media, the server ready and the sampler started by `underway`. */
  method VideoCallSampling(sid: Option<int>) returns (c: Controller)
    ensures fresh(c) && c.Valid() && c.sessionId == sid
    ensures c.st == FrameState(VideoCall, AffordancesFor(VideoCall), "", 0, true, Open, true, true, true,
      true, false, true, true, [], 0, 0, [SocketText("start")])
  {
    c := new Controller(sid);
    c.CallButtonClicked(Video);
    assert c.st == FrameState(VideoCall, AffordancesFor(VideoCall), "", 0, true, Connecting, false, false, false,
      false, false, true, false, [], 0, 0, []);
    c.SocketOpened();
    c.MediaAcquired();
    c.SocketMessage(Started);
    c.SocketMessage(Underway(None));
  }

  /**
   * A video call turn: `underway` starts the sampler, ticks capture the
   * frames the video has (a tick before the video has data captures
   * none), and `complete` posts the sentence with them in capture order.
   */
  method VideoCallTurn(sid: Option<int>, f1: string, f2: string, sentence: string) returns (sent: seq<Effect>)
    requires sentence != ""
    ensures sent == [SocketText("start"), PostHuman(ChatRequest(Some(sentence), sid, Frames([f1, f2])))]
  {
    var c := VideoCallSampling(sid);
    c.SamplerTick(1, "unused");
    c.SamplerTick(2, f1);
    c.SocketMessage(Underway(None));
    c.SamplerTick(4, f2);
    assert c.st == FrameState(VideoCall, AffordancesFor(VideoCall), "", 0, true, Open, true, true, true,
      true, false, true, true, [f1, f2], 3, 0, [SocketText("start")]);
    c.SocketMessage(Complete(Some(sentence)));
    sent := c.st.outbox;
  }

  /** The first half of `FramesOutliveVideoCall`: a video call captures one frame and is hung up before its sentence. */
  method VideoCallHungUp(sid: Option<int>, frame: string) returns (c: Controller)
    ensures fresh(c) && c.Valid() && c.sessionId == sid
    ensures c.st == FrameState(Idle, AffordancesFor(Idle), "", 0, false, NoSocket, false, false, false,
      false, false, false, false, [frame], 1, 0, [SocketText("start"), SocketText("stop")])
  {
    c := new Controller(sid);
    c.CallButtonClicked(Video);
    assert c.st == FrameState(VideoCall, AffordancesFor(VideoCall), "", 0, true, Connecting, false, false, false,
      false, false, true, false, [], 0, 0, []);
    c.SocketOpened();
    c.SocketMessage(Underway(None));
    c.SamplerTick(HaveCurrentData, frame);
    assert c.st == FrameState(VideoCall, AffordancesFor(VideoCall), "", 0, true, Open, false, false, false,
      false, false, true, true, [frame], 1, 0, [SocketText("start")]);
    c.CallButtonClicked(Video);
  }

  /**
   * Hanging up keeps the captured frames, and a voice call started next
   * never starts the sampler, so its first sentence is posted with the
   * frames of the earlier video call.
   */
  method FramesOutliveVideoCall(sid: Option<int>, frame: string, sentence: string) returns (sent: seq<Effect>)
    requires sentence != ""
    ensures sent == [SocketText("start"), SocketText("stop"), SocketText("start"),
      PostHuman(ChatRequest(Some(sentence), sid, Frames([frame])))]
  {
    var c := VideoCallHungUp(sid, frame);
    c.CallButtonClicked(Voice);
    assert c.st == FrameState(VoiceCall, AffordancesFor(VoiceCall), "", 0, true, Connecting, false, false, false,
      false, false, false, false, [frame], 1, 0, [SocketText("start"), SocketText("stop")]);
    c.SocketOpened();
    c.SocketMessage(Underway(None));
    assert c.st == FrameState(VoiceCall, AffordancesFor(VoiceCall), "", 0, true, Open, false, false, false,
      false, false, false, false, [frame], 1, 0, [SocketText("start"), SocketText("stop"), SocketText("start")]);
    c.SocketMessage(Complete(Some(sentence)));
    sent := c.st.outbox;
  }
}
