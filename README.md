# Talking-avatar call pipeline, modelled in Dafny

This project models the conversational core of a talking-avatar web
application. The modelled pieces form one round trip:

- **Browser call controller** (`web/app.js`). It streams microphone PCM
  to a speech-recognition server over a WebSocket. It turns `underway` and
  `complete` messages into chat requests for the avatar, optionally with a
  video recording. It keeps the microphone muted while the avatar speaks.
- **Frame-sampler variant** (`web/app_images.js`). It sends sampled
  camera frames instead of a recording.
- **Streaming recogniser session** (`stt/speechonline.py`):
  - it buffers incoming audio and cuts it into 7680-sample strides for
    the recognition model;
  - it gathers partial results into a sentence;
  - it queues `underway`, `complete` and error messages for the browser;
  - on `stop` it flushes the sentence it still holds.
- **Reply readers** (`llm.py`, `vllm.py`). They post the recognised text,
  with media when there is any, to a language-model service. They read its
  event stream (or chat-completion stream) and hand the answer to the
  avatar in punctuation-closed chunks.

Layout, one module per file:

| file | module | what it models |
|---|---|---|
| `wrappers.dfy` | `Wrappers` | an `Option` type |
| `text.dfy` | `Text` | Python `str.strip` and JavaScript `trim` |
| `chunker.dfy` | `SentenceChunker` | the punctuation chunker, which all four reply readers share |
| `reply_stream.dfy` | `ReplyStream` | the event-stream line parser, the four readers and their requests |
| `pcm.dfy` | `Pcm` | `convertAudioData`, the 16-bit little-endian PCM wire format and the server's normalisation |
| `speaking_wait.dfy` | `SpeakingWait` | the polling loops that wait for the avatar to start and to stop speaking |
| `input_mode.dfy` | `InputArbiter` | `updateInputMode`: which input controls are enabled in which mode |
| `call_protocol.dfy` | `CallProtocol` | the call types, the `/human` request, the socket messages and the other effects |
| `blob_client.dfy` | `BlobCallClient` | the `web/app.js` controller, as a class over its module-level variables |
| `frame_client.dfy` | `FrameCallClient` | the `web/app_images.js` controller |
| `speech_session.dfy` | `SpeechSession` | `ClientSession`, the `process_audio` loop and the WebSocket handler |

How the core's parts are represented:

- **Server side.**
  - The recognition model is an oracle: a function from the history of
    calls made with the session's cache, plus the new call, to a result.
  - The silence test and the clock are parameters.
  - The state-changing class `ClientSession` is a Dafny class with one
    state field. Each of its methods is proved equal to a specification
    function, and the lemmas are stated about those functions. A second
    field, `threadOver`, records whether the handler's processing thread
    has returned, so that a thread that is over never runs again.
- **Browser side.**
  - Each event handler is a method of `Controller`.
  - Whatever the page sends goes to an `outbox`: socket frames, `/human`
    requests (JSON, or multipart with every field as the text `FormData`
    writes) and `/is_speaking` polls.
  - The ends of `await`s (media acquired, a recorder's `onstop`, a wait
    finishing) are separate events.
- **Reply readers.** Each reader returns what it hands to the avatar.
  - The HTTP reply is either refused, or a body of lines that may be cut
    off by a network error.
  - The JSON decoder is a parameter.

Some behaviours are modelled exactly as the source has them:

- In a video call, the recorder started on `underway` has an `onstop` that
  posts the `underway` message's `text`. The server never sends that
  field, and `FormData` writes the missing value as the string
  `"undefined"`, so that is the text the recording goes out with
  (`StopPostsRecording`, `EmptyCompletePostsRecording`).
- A second `underway` in a video call, which follows whenever an error
  report has emptied the server's partial text, replaces `videoRecorder`
  without stopping the recorder it held. That recorder goes on recording
  until hanging up ends the camera's tracks, and its `onstop` then posts a
  second form, also with the text `"undefined"` (`SecondUnderwayPostsTwice`).
- When a call ends, the frame sampler stops, but its captured frames are
  kept. A voice call never empties them, so frames left over from a
  video call go out with the first sentence of a following voice call
  (`FramesOutliveVideoCall`).
- `llm_response_v1` hands over its final leftover even when that is empty
  (`AnswerV1`).

## Model

| member | source | states |
|---|---|---|
| Text.Strip | stt/speechonline.py:132 | The result is a contiguous run of the input with only whitespace around it, and no whitespace at either of its ends. It is empty exactly when the input is all whitespace. The same function, with JavaScript's whitespace set, models `trim`. |
| Text.TrimStart | stt/speechonline.py:132 | Removes exactly the leading whitespace. The result is a suffix that does not start with whitespace, and every character dropped is whitespace. |
| Text.TrimEnd | stt/speechonline.py:132 | Removes exactly the trailing whitespace. The result is a prefix that does not end with whitespace, and every character dropped is whitespace. |
| SentenceChunker.NextBreak | llm.py:108-109 | Returns the first punctuation break at or after the position, or the end of the text. Nothing before it is a break. |
| SentenceChunker.Feed | llm.py:106-122 | Every chunk handed over is longer than 10 characters and ends in one of `,.!;:，。！？：；`. A message without punctuation is only appended to the pending text. |
| SentenceChunker.FeedFromFlushes | llm.py:108-119 | Every chunk emitted from any position onwards is a flushed chunk: longer than 10 characters and ending in punctuation. |
| SentenceChunker.FeedAtBreak | llm.py:109-119 | At a break, the piece up to and including it is emitted when it makes the pending text longer than 10 characters. Otherwise it stays pending. |
| SentenceChunker.FeedFromKeepsText | llm.py:106-122 | No text is lost or reordered: the emitted chunks followed by the new pending text spell the old pending text followed by the rest of the message. |
| SentenceChunker.FeedKeepsText | llm.py:106-122 | No text is lost or reordered, for a whole message. |
| SentenceChunker.FeedContent | llm.py:106-122 | The loop over the message's characters emits exactly the chunks of `Feed`, and leaves its pending text. |
| SentenceChunker.TakeMark | llm.py:109-119 | At a punctuation mark the text since the previous mark either joins the pending text or, once it is longer than the flush bound, is emitted as one chunk and the pending text is cleared; either way the remaining feed is unchanged. |
| ReplyStream.DataPayloadPresent | llm.py:84-93 | A line yields a payload exactly when, once stripped, it starts with `data:` and something other than whitespace follows. |
| ReplyStream.DataPayloadShape | llm.py:86-91 | A payload is non-empty, is a run of the line, and has no whitespace at either end. |
| ReplyStream.LineStep | llm.py:85-126 | Maps one line to its effect. A line without a payload is skipped, and so is a payload that is not JSON. A JSON value without `.get` raises out of the reader. An object with non-empty `content` gives exactly that content. Anything else is skipped. |
| ReplyStream.ChunkStep | llm.py:33-40 | Maps one completion chunk to its effect. A chunk without choices is skipped. A `None` delta raises. Otherwise the chunk gives its delta's content. |
| ReplyStream.ReadFlushes | llm.py:84-126 | Every chunk handed over while reading a stream is a flushed chunk. |
| ReplyStream.SkipChangesNothing | llm.py:92-93 | A skipped line leaves the reader unchanged. This covers empty payloads, lines that are not `data:` lines, and undecodable JSON. |
| ReplyStream.ReadKeepsText | llm.py:84-126 | Reading a stream loses no text: the chunks handed over, followed by the pending text, spell everything the stream delivered. |
| ReplyStream.ReadSteps | llm.py:84-126 | The reading loop produces exactly the chunks and pending text of `Read`. It raises exactly when some line raises. |
| ReplyStream.ReadEventStream | llm.py:76-137 | The shared reader hands over exactly `Answer`. A refused request hands over nothing. A stream that is cut off or raises drops its pending text. A stream read to its end flushes any non-empty pending text once. It raises to its caller exactly when a line raises, since only request errors are caught. |
| ReplyStream.AnswerShape | llm.py:116-131 | No chunk handed to the avatar is empty. Every chunk but the last is a flushed chunk. |
| ReplyStream.AnswerKeepsText | llm.py:84-131 | A stream read to its end hands over exactly the text it delivered, in order. |
| ReplyStream.AnswerFlushesOnce | llm.py:128-131 | The answer is the chunks emitted while reading, plus the pending text only if the stream completed and that text is non-empty. An incomplete stream hands over only flushed chunks. |
| ReplyStream.LlmResponse | llm.py:57-137 | Posts `{"text": message}` as JSON to the voice-assistant URL, then hands over exactly `Answer`, and raises to its caller exactly when a line raises. |
| ReplyStream.LlmResponseWithVideo | vllm.py:26-110 | Posts a multipart form with the text and the file `videoFile` (`user_video.webm`, `video/webm`) to the video-assistant URL, then hands over exactly `Answer`, and raises to its caller exactly when a line raises. |
| ReplyStream.LlmResponseWithImages | vllm.py:114-186 | Posts the text and the base64 images as JSON to the image-assistant URL, then hands over exactly `Answer`, and raises to its caller exactly when a line raises. |
| ReplyStream.LlmResponseV1 | llm.py:12-54 | Requests a streamed `qwen-plus` completion with the fixed system prompt. It hands over the chunked deltas and then the leftover, even when that is empty. It raises, handing over no leftover, exactly when the stream broke off or a delta raised, since nothing is caught. |
| ReplyStream.AnswerV1KeepsText | llm.py:33-54 | A completion stream that neither breaks off nor raises hands over at least one piece. The pieces spell exactly the delivered text, and every piece but the last is a flushed chunk. |
| Pcm.TruncateTowardZero | web/app.js:378 | Integer conversion truncates toward zero for both signs, as storing into an `Int16Array` does. |
| Pcm.ToInt16 | web/app.js:378 | The result is in the 16-bit range and congruent to the input modulo 65536. Values already in range are kept. |
| Pcm.Clamp | web/app.js:377 | The sample is amplified by 1.5 and clamped to [-1, 1]. |
| Pcm.ConvertSample | web/app.js:376-379 | Each converted sample is in the 16-bit range and has the sign of the input. Inputs whose amplified value reaches ±1 give exactly 32767 or -32768. |
| Pcm.ConvertSampleMonotone | web/app.js:376-379 | Conversion preserves order: a louder input never gives a smaller sample. |
| Pcm.Converted | web/app.js:373-382 | Conversion keeps the length, and every sample is in the 16-bit range. |
| Pcm.ConvertAudioData | web/app.js:373-382 | The loop converts each sample in place of the input, with the same length. |
| Pcm.EncodeSample | web/app.js:381 | A sample is two bytes, low byte first, whose value is the sample in 16-bit two's complement. |
| Pcm.DecodeSample | stt/speechonline.py:285 | Two little-endian bytes read as a signed 16-bit value are in range, and agree with the bytes' unsigned value modulo 65536. |
| Pcm.DecodeEncodeSample | stt/speechonline.py:285 | Decoding an encoded sample gives it back. |
| Pcm.EncodePcm | web/app.js:381 | The frame is two bytes per sample. |
| Pcm.DecodePcm | stt/speechonline.py:282-290 | An odd-length frame is refused: `frombuffer` raises and the handler reports an error. Otherwise the frame decodes to half as many samples, all in the 16-bit range. |
| Pcm.DecodeEncodePcm | stt/speechonline.py:285 | The server decodes exactly the samples the browser encoded. |
| Pcm.Normalize | stt/speechonline.py:286 | Dividing by 32768 keeps the length. It maps every sample into [-1, 1) and loses nothing. |
| SpeakingWait.StartWait | web/app.js:412-421 | Polls at most 20 times. It returns true at the first poll that says speaking, and false after 20 polls that do not. It is still polling only if fewer than 20 quiet answers have come. A failed poll counts as not speaking. |
| SpeakingWait.StopWait | web/app.js:424-433 | Returns, with false, at the first poll that says not speaking, and only then. Every earlier poll said speaking. |
| SpeakingWait.ReplyWaitReturns | web/app.js:326-330 | The wait after a sentence returns exactly when the start wait times out, or when it sees speaking and a later poll sees silence. |
| SpeakingWait.WaitForStart | web/app.js:412-421 | The polling loop ends exactly as `StartWait` says. |
| SpeakingWait.WaitForStop | web/app.js:424-433 | The polling loop ends exactly as `StopWait` says. |
| SpeakingWait.AwaitReply | web/app.js:326-330 | The two loops in sequence end exactly as `ReplyWait` says. |
| InputArbiter.AffordancesFor | web/app.js:63-74 | With no mode, every control is enabled. In a mode, exactly that mode's own control is enabled, so at most one control is. The chat form is disabled exactly during a call. |
| CallProtocol.CallMode | web/app.js:181 | A call's mode is a call mode. It is the voice-call mode exactly for a voice call. |
| CallProtocol.Polls | web/app.js:389-404 | `n` polls are exactly `n` `/is_speaking` requests carrying the session id. |
| CallProtocol.NumberTextRoundTrip | web/app.js:105-115 | The session id field of a multipart request is `"NaN"` exactly when `parseInt` gave `NaN`; otherwise it is a numeral that reads back as the parsed id. |
| CallProtocol.RecordingForm | web/app.js:109-115 | The multipart form carries the recording under its MIME type, `type` `chat`, `interrupt` `"true"`, and the text, which is `"undefined"` when the caller passed none; the session id field is `"NaN"` exactly when there is no parsed id. |
| BlobCallClient.Stopped | web/app.js:234-260 | After `stopCall` the call is inactive. There is no mode, socket, recorder, chunks, media, server readiness or speaking flag. A `stop` frame is sent exactly when the socket was open. Every recorder still recording, `videoRecorder` first and then the replaced ones, has its `onstop` queued, and none is left recording. The chat input, the timer and the pending waits are untouched. |
| BlobCallClient.UnderwayStartsRecording | web/app.js:284-295 | In a video call with a camera, `underway` starts one more recording with its own `onstop` on an emptied chunk list. Every recorder that was recording still is, and nothing is sent or queued. Otherwise nothing changes. |
| BlobCallClient.OnComplete | web/app.js:297-320 | `complete` stops at most the current recording, queueing its `onstop`, and leaves the replaced recorders alone. |
| BlobCallClient.NoRecordingLost | web/app.js:277-336 | No recording loses its `onstop`: messages only add to the queued `onstop`s, and every recorder is still recording or has its `onstop` queued. The one `underway` starts is the only new one. |
| BlobCallClient.CallStarted | web/app.js:177-192 | `startCall` makes the call active in its mode, and a socket starts connecting. Nothing is sent yet. |
| CallProtocol.AudioSent | web/app.js:211-223 | A microphone buffer is sent exactly when the call is active, the avatar is not speaking, the server said `started` and the socket is open. It is sent as one binary frame of the converted samples. web/app_images.js:213-223 has the same gate, and both controllers use this one function. |
| BlobCallClient.CompleteWithoutTextSendsNothing | web/app.js:297-306 | A `complete` without text, or one that arrives while the avatar speaks, sends nothing and starts no wait. In a video call it only stops the recording, keeping its `onstop`, so that `onstop` is queued; otherwise nothing changes. |
| BlobCallClient.CompleteSendsOnce | web/app.js:297-331 | Any other `complete` sends its sentence exactly once. With a recording running in a video call, the sentence goes through the `onstop` the handler installs. Otherwise it goes as JSON at once. The avatar then counts as speaking, and one wait is pending. |
| BlobCallClient.StopPostsRecording | web/app.js:103-123 | A queued `onstop` posts at most one multipart form holding exactly the chunks recorded, with the session id as the text of the parsed id. The `underway` handler always posts, with the text `"undefined"`; the `complete` handler posts the sentence under the recorder's MIME type, and posts nothing once the recorder is released. |
| BlobCallClient.Controller.constructor | web/app.js:3-17 | The page starts with no call, no mode and nothing sent. |
| BlobCallClient.Controller.UpdateInputMode | web/app.js:63-74 | Sets the mode and the enabled controls that go with it. |
| BlobCallClient.Controller.StartVoiceRecording | web/app.js:155-160 | Push-to-talk starts only with no other mode active. Otherwise nothing changes. |
| BlobCallClient.Controller.StopVoiceRecording | web/app.js:162-174 | Releasing push-to-talk arms the submit timer. Outside push-to-talk nothing changes. |
| BlobCallClient.Controller.SetChatInput | web/app.js:145-151 | Browser speech recognition writes its transcript into the chat input. |
| BlobCallClient.Controller.DebounceExpired | web/app.js:166-173 | When the timer fires, the mode returns to none. If the trimmed chat input is not empty it is posted and the input cleared. Otherwise nothing is sent. |
| BlobCallClient.Controller.SubmitChatForm | web/app.js:443-449 | Submitting posts the message and clears the input, unless the form is disabled or the message is blank after trimming. |
| BlobCallClient.Controller.StartCall | web/app.js:177-192 | A call starts only when none is active. |
| BlobCallClient.Controller.MediaAcquired | web/app.js:199-226 | Once `getUserMedia` resolves, the stream, the audio graph and the processor exist. |
| BlobCallClient.Controller.Cleanup | web/app.js:361-370 | Releases the socket, the media, the audio graph and the recorder. It empties the chunks and clears both flags. Ending the camera's tracks stops the replaced recorders still recording, and their `onstop`s are queued. |
| BlobCallClient.Controller.StopCall | web/app.js:234-260 | An active call ends in `Stopped`. Otherwise nothing changes, which covers `beforeunload` too. |
| BlobCallClient.Controller.CallButtonClicked | web/app.js:456-457 | A call button toggles: it stops an active call and starts one otherwise. |
| BlobCallClient.Controller.SocketOpened | web/app.js:267-272 | Opening the socket sends `start` once. |
| BlobCallClient.Controller.SocketClosed | web/app.js:342-353 | A close or error during a call ends the call as `stopCall` does. |
| BlobCallClient.Controller.SocketMessage | web/app.js:273-341 | A message is handled only on the open socket: `started` sets readiness, then `underway` and `complete` as their handlers do. |
| BlobCallClient.Controller.HandleUnderway | web/app.js:283-296 | In a video call with a camera, the chunks are dropped and a fresh recording starts. A recorder it replaces that was still recording is kept, with its `onstop`, among those cleanup will stop. |
| BlobCallClient.Controller.HandleComplete | web/app.js:297-331 | The state becomes `OnComplete`. Its properties are the two `Complete…` lemmas. |
| BlobCallClient.Controller.AudioProcess | web/app.js:211-223 | The outbox grows by exactly `AudioSent`, and nothing else changes. |
| BlobCallClient.Controller.RecorderData | web/app.js:288 | Only non-empty recorder data is appended to the chunks. |
| BlobCallClient.Controller.RecorderStopped | web/app.js:289-317 | The oldest queued `onstop` runs and sends what `StopSends` says. |
| BlobCallClient.Controller.ReplyWaitReturns | web/app.js:326-330 | When a pending wait returns, the speaking flag clears. |
| BlobCallClient.VoiceCallTurn | web/app.js:177-331 | Scenario, a voice call: `start`, exactly one audio frame (sent after `started`), then the sentence as JSON. |
| BlobCallClient.SpeakingMutesAudio | web/app.js:211-223 | Scenario: audio that arrives while the avatar speaks is not sent, and is sent again once the wait returns. |
| BlobCallClient.VideoCallTurn | web/app.js:283-331 | Scenario, a video call: the sentence is posted with the recording, using the recorder's MIME type. |
| BlobCallClient.EmptyCompletePostsRecording | web/app.js:283-306 | Scenario: a `complete` without text stops the recording, whose `underway` `onstop` posts the recording with the text `"undefined"`. |
| BlobCallClient.SecondUnderwayPostsTwice | web/app.js:254-258 | Scenario: `underway`, an unrecognised message and `underway` again, then hanging up. Both recorders are stopped and both post a form with the text `"undefined"`. |
| BlobCallClient.DebounceDuringCall | web/app.js:162-174 | Scenario: a push-to-talk timer that fires during a call still posts the text, and resets the mode to none while the call stays active. |
| FrameCallClient.StoppedReleasesEverything | web/app_images.js:234-262 | After `stopCall` there is no mode, socket, sampler, canvas, media or flag left. The frames are kept, and at most one `stop` was sent, only on an open socket. |
| FrameCallClient.CallStarted | web/app_images.js:171-190 | The call is active in its mode and a socket is connecting. A video call has a canvas. |
| FrameCallClient.CompleteSendsFramesOnce | web/app_images.js:304-330 | `complete` always stops the sampler and empties the frames. It sends nothing without text or while the avatar speaks. Otherwise it posts the sentence exactly once with the frames, in capture order. |
| FrameCallClient.UnderwayWhileSampling | web/app_images.js:286-301 | An `underway` while the sampler runs changes nothing. |
| FrameCallClient.Controller.constructor | web/app_images.js:3-18 | The page starts with no call, no sampler and nothing sent. |
| FrameCallClient.Controller.UpdateInputMode | web/app_images.js:64-74 | Sets the mode and its enabled controls. |
| FrameCallClient.Controller.StartVoiceRecording | web/app_images.js:148-153 | Push-to-talk starts only with no mode active. |
| FrameCallClient.Controller.StopVoiceRecording | web/app_images.js:155-167 | Releasing push-to-talk arms the submit timer. |
| FrameCallClient.Controller.SetChatInput | web/app_images.js:138-144 | Speech recognition writes the transcript into the chat input. |
| FrameCallClient.Controller.DebounceExpired | web/app_images.js:159-166 | The timer resets the mode and posts a non-blank input. |
| FrameCallClient.Controller.SubmitChatForm | web/app_images.js:444-450 | Submitting posts a non-blank message unless the form is disabled. |
| FrameCallClient.Controller.StartCall | web/app_images.js:171-190 | A call starts only when none is active. |
| FrameCallClient.Controller.MediaAcquired | web/app_images.js:196-226 | The stream, the audio graph and the processor exist. |
| FrameCallClient.Controller.StopCall | web/app_images.js:234-262 | An active call ends in `Stopped`: the sampler stops, but its frame list is left as it is. Otherwise nothing changes. |
| FrameCallClient.Controller.CallButtonClicked | web/app_images.js:457-458 | A call button toggles the call. |
| FrameCallClient.Controller.SocketOpened | web/app_images.js:269-274 | Opening the socket sends `start` once. |
| FrameCallClient.Controller.SocketClosed | web/app_images.js:341-352 | A close or error during a call stops it. |
| FrameCallClient.Controller.SocketMessage | web/app_images.js:275-340 | A message is handled only on the open socket. |
| FrameCallClient.Controller.HandleUnderway | web/app_images.js:286-301 | In a video call with no sampler running, the frames are emptied and sampling starts. |
| FrameCallClient.Controller.HandleComplete | web/app_images.js:304-330 | The state becomes `OnComplete`. |
| FrameCallClient.Controller.SamplerTick | web/app_images.js:290-299 | A tick of a running sampler is counted, and it adds the frame only when the video has current data (`readyState` at least 2). A stopped sampler changes nothing. |
| FrameCallClient.Controller.AudioProcess | web/app_images.js:213-223 | The outbox grows by exactly `AudioSent`. |
| FrameCallClient.Controller.ReplyWaitReturns | web/app_images.js:325-329 | When a pending wait returns, the speaking flag clears. |
| FrameCallClient.VideoCallTurn | web/app_images.js:171-330 | Scenario, a video call: `start`, then the sentence with the two frames sampled in between. |
| FrameCallClient.FramesOutliveVideoCall | web/app_images.js:234-330 | Scenario: frames sampled in a video call that ended before its sentence arrived are posted with the first sentence of the next call, a voice call. |
| SpeechSession.ShouldEndSentence | stt/speechonline.py:98-105 | True exactly when the text is non-empty, is long enough and contains one of `。！？.!?`. |
| SpeechSession.Queued | stt/speechonline.py:56-59 | Adding a message appends it to the send queue and empties the recognition buffer. Nothing else changes. |
| SpeechSession.UpdatedFacts | stt/speechonline.py:69-96 | Empty text changes nothing. Otherwise the text is appended to the buffer and the activity time is set. An `underway` is queued exactly when the buffer was empty. |
| SpeechSession.SentenceOutFacts | stt/speechonline.py:127-152 | A non-empty sentence queues exactly one `complete`. It carries the current chunk count, and its text starts with the stripped sentence (the final model pass may extend it). |
| SpeechSession.CheckedFacts | stt/speechonline.py:107-118 | A `complete` is queued and the buffer emptied exactly when the buffer is non-empty and long enough, and more than a second has passed since the last partial result. Otherwise nothing changes. Either way the samples and the silence count are untouched, and calls and messages are only added. |
| SpeechSession.ForcedFacts | stt/speechonline.py:120-125 | Forcing queues exactly one `complete` for a non-empty buffer, whatever `force` is. The buffer is empty afterwards. |
| SpeechSession.RecogniseFacts | stt/speechonline.py:208-228 | One stride records one model call; the audio buffer and the silence count are untouched. A recognised text is stripped and joins the recognition buffer as `update_recognition_result` does, and the chunk count rises by one. A call that raises queues exactly its error message and, through `add_message`, empties the recognition buffer, dropping the pending partial text. |
| SpeechSession.CutFacts | stt/speechonline.py:202-205 | The buffer is cut into strides of exactly 7680 samples. The strides followed by the leftover give back the buffer, and the leftover is shorter than a stride. |
| SpeechSession.StridedLeftover | stt/speechonline.py:202-228 | The inner loop leaves exactly the leftover in the buffer. It keeps the silence count and only appends to the send queue. |
| SpeechSession.StridedCalls | stt/speechonline.py:202-216 | The inner loop calls the model once per stride, in order, never as a final call. |
| SpeechSession.StridedCount | stt/speechonline.py:224-228 | The chunk count rises by exactly the number of stride calls that did not raise. |
| SpeechSession.AbsorbedFacts | stt/speechonline.py:190-231 | A chunk updates the silence count (one more if silent, else reset). It leaves the leftover of the old buffer plus the chunk, and makes the stride calls over it in order. |
| SpeechSession.AudioStepSentinel | stt/speechonline.py:184-188 | The empty sentinel, and only it, ends the loop, and it changes nothing else. |
| SpeechSession.FinishedFacts | stt/speechonline.py:244-261 | The end of the thread empties the recognition buffer and only appends to the send queue. A non-empty buffer always yields a `complete`. |
| SpeechSession.ProcessedDrains | stt/speechonline.py:176-261 | A processing thread that has ended leaves nothing in the recognition buffer. |
| SpeechSession.StoppedEndsThread | stt/speechonline.py:170-188 | After `stop`, the thread ends on its next turn and runs its final pass. |
| SpeechSession.ClosedFacts | stt/speechonline.py:294-312 | Closing leaves the session inactive with nothing in the recognition buffer, and only appends to the send queue. |
| SpeechSession.HandleFrame | stt/speechonline.py:279-314 | A binary frame is decoded and queued; an odd-length frame gets an error reply. `start` replies `started`. `stop` closes the session, replies `stopped` and ends the loop, and the `finally` then closes it once more; the thread's final pass runs at most once, and only if the thread was still running and ends within a join. Other text is ignored. |
| SpeechSession.CloseSession | stt/speechonline.py:294-312 | Closing leaves the session in `Closed`, with the thread's final pass run only if the thread had not returned and ends within the join; the thread then counts as over. |
| SpeechSession.ClosedAgainAddsNothing | stt/speechonline.py:308-312 | Closing a closed session again without a final pass, as the `finally` after `stop` does once the thread is over, queues no message: only another end-of-stream sentinel. |
| SpeechSession.ShortChunkWaits | stt/speechonline.py:195-231 | A chunk that leaves the sample buffer short of a stride only joins it, and the silence count is updated. No stride is recognised, so the chunk count stays. Only the silence timeout can still call the model; with no partial text nothing is called or queued. |
| SpeechSession.FirstShortChunkWaits | stt/speechonline.py:199-202 | Scenario: the first, non-silent chunk of a new session, shorter than a stride, is only buffered. |
| SpeechSession.LeftoverFlushedOnClose | stt/speechonline.py:244-261 | On close, speech left in the buffer is recognised by the final pass and queued as `underway` then `complete`. |
| SpeechSession.FinalPassHears | stt/speechonline.py:245-256 | The final pass calls the model once, as a final call on the leftover, and adds the stripped text. |
| SpeechSession.ForcedWord | stt/speechonline.py:120-152 | Forcing a recognised word sends exactly that word as a `complete`. |
| SpeechSession.ShortUtteranceOnStop | stt/speechonline.py:264-314 | Scenario: an utterance shorter than one stride, followed by `stop`, queues `underway` and `complete` for the word heard, and the handler replies `stopped`; the `finally` queues nothing more. |
| SpeechSession.ClientSession.constructor | stt/speechonline.py:29-51 | A new session is active, with every queue, buffer and count empty or zero, and its thread still running. |
| SpeechSession.ClientSession.AddAudio | stt/speechonline.py:53-54 | The audio is appended to the audio queue. |
| SpeechSession.ClientSession.AddMessage | stt/speechonline.py:56-59 | The state becomes `Queued`. |
| SpeechSession.ClientSession.UpdateRecognitionResult | stt/speechonline.py:69-96 | The state becomes `Updated`. |
| SpeechSession.ClientSession.ProcessCompleteSentence | stt/speechonline.py:127-152 | The state becomes `SentenceOut`. |
| SpeechSession.ClientSession.CheckSentenceCompletion | stt/speechonline.py:107-118 | The state becomes `Checked`. |
| SpeechSession.ClientSession.ForceSentenceCompletion | stt/speechonline.py:120-125 | The state becomes `Forced`. |
| SpeechSession.ClientSession.Stop | stt/speechonline.py:170-173 | The session is inactive and the sentinel is queued. |
| SpeechSession.ClientSession.RecognizeChunk | stt/speechonline.py:208-228 | The state becomes `Recognise`. |
| SpeechSession.ClientSession.RecognizeStrides | stt/speechonline.py:202-228 | The inner loop ends in `Strided`. |
| SpeechSession.ClientSession.ProcessAudioStep | stt/speechonline.py:180-236 | One turn of the outer loop ends in `AudioStep`. |
| SpeechSession.ClientSession.AbsorbChunk | stt/speechonline.py:190-231 | The state becomes `Absorbed`. |
| SpeechSession.ClientSession.ProcessAudio | stt/speechonline.py:176-261 | A running thread ends in `Processed`, and counts as over exactly when it ended; a thread that is over changes nothing. |
| SpeechSession.ClientSession.FinishAudio | stt/speechonline.py:244-261 | The state becomes `Finished`. |

## Left out

- The recognition model: FunASR is an oracle over the history of calls made with the session's cache, and its internals are not modelled.
- Floating point: samples are reals. The RMS silence test is the parameter `isSilent`, and IEEE rounding in `convertAudioData` is not modelled.
- Clocks and timeouts: each operation takes the time as a parameter. The outer loop's 0.5 s queue wait is a turn with nothing queued. Whether the thread ends within a 2 s join is a parameter (`joined`, and `rejoined` for the `finally` after `stop`).
- Threads and the event loop: the interleaving of the socket handler and the processing thread is chosen by the caller of the model.
- `send_messages` and the WebSocket sends: the send queue is kept as a sequence of what is queued, not of what reaches the browser. Replies such as `stopped` go straight onto the socket, ahead of anything still queued, and the `finally` cancels the sender (stt/speechonline.py:314), so queued messages may go out after the reply or never. The fallback flush when the sender exits is not part of this model.
- A raise from the completion call that `check_sentence_completion` makes (stt/speechonline.py:117, 133), when the recogniser raises, takes one of two paths in the source, depending on the call site:
  - After a chunk (stt/speechonline.py:231), it reaches the catch-all at stt/speechonline.py:237-240. The error `处理线程异常` is queued instead of the `complete`, and `add_message` clears the recognition buffer, so the sentence is dropped. The loop breaks, and audio that arrives later on that connection is never recognised. The final pass and the forced completion (stt/speechonline.py:244-261) still run.
  - On the silence timeout (stt/speechonline.py:235), the call sits inside `except queue.Empty:`, which its sibling `except Exception:` does not cover. The thread ends with the exception and no error is queued. The recognition buffer keeps the sentence, and the final pass and the forced completion do not run. The handler's `force_sentence_completion(force=True)` (stt/speechonline.py:300, 312) later tries that sentence again.
  - The model treats either raise like an empty result instead: it queues the `complete`, empties the buffer and keeps the loop running.
- SpeechSession.CheckedFacts: a due sentence always yields a `complete`, only because the raise described above is treated like an empty result.
- SpeechSession.ForcedFacts: forcing always queues exactly one `complete` for a non-empty buffer and always leaves the buffer empty, only because a raise from the completion call is treated like an empty result. In the source that raise (stt/speechonline.py:133) propagates out of `force_sentence_completion` (stt/speechonline.py:120-125) before the buffer is reset, so nothing is queued and the buffer keeps its text.
- SpeechSession.ProcessedDrains: a thread that has ended always leaves the recognition buffer empty, only because a raise from a completion call is treated like an empty result. In the source a thread can end with text still in the buffer: through a raise from the forced completion at stt/speechonline.py:261, or through a raise on the silence-timeout path at stt/speechonline.py:235 described above.
- SpeechSession.FinishedFacts: a pending sentence always yields a `complete` only because a raise from its completion call is treated like an empty result. In the source that raise (stt/speechonline.py:261) ends the thread with the exception and queues nothing.
- SpeechSession.ClosedFacts: the recognition buffer always ends empty only because a raise from a completion call is treated like an empty result. In the source a raise from `force_sentence_completion` in the handler (stt/speechonline.py:300, 312) leaves the buffer as it was and ends the handler with the exception.
- SpeechSession.FinalPass: an exception raised by the final model pass is treated like an empty result, as the source swallows it.
- SpeechSession.SentenceOutFacts: an exception from the final model call inside `_process_complete_sentence` is treated like an empty result, because the model does not propagate it.
- Logging, `print`, timing measurements, and the module-level model loading are not part of this model.
- The HTTP client and `raise_for_status`: a failed or refused request is the reply `Refused`, and a connection that breaks mid-stream is a cut-off body.
- JSON: decoding is the parameter `decode`. `data_result.get('content', '')` on a non-string value is not modelled; content is a string or absent.
- Multipart and JSON encoding of requests: requests are datatypes naming their fields, not bytes. A session id is written as a plain decimal numeral; JavaScript's exponent notation from 1e21 on and its 53-bit precision are not modelled.
- Order of `/is_speaking` polls: a wait's polls are recorded in the outbox together when the wait returns, not when each is sent. The first poll goes out as soon as the wait starts, so in a video call it precedes the post that the recorder's `onstop` makes; the outbox shows it after.
- The session id input: each controller reads `$sessionidInput` once, at construction (`sessionId`), while the page re-reads it on every request; editing the field during a call is not modelled.
- `line.decode('utf-8')` in the HTTP readers: body lines are text, so the `UnicodeDecodeError` that invalid UTF-8 would raise out of the reader is not modelled.
- Browser speech recognition internals: only the transcript written to the chat input is modelled.
- Page decoration: chat bubbles (`addChatMessage`), button labels, `startPlay`/`stopPlay` and the video-size slider are not part of this model.
- The frame sampler's JPEG encoding: a frame is an opaque string.
- Network errors of `/is_speaking` are a poll that answers "not speaking", as `is_speaking` does.
