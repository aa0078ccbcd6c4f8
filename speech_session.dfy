/**
 * The streaming speech-recognition session of stt/speechonline.py: one
 * `ClientSession` per browser socket.  Incoming PCM is buffered and cut
 * into fixed strides for the recogniser; partial results accumulate in a
 * recognition buffer, which becomes one `complete` message on a silence
 * timeout or when the stream ends.  Messages for the browser go, in
 * order, to `sendQueue`.
 *
 * The FunASR model is an oracle: what it answers for a call may depend on
 * every earlier call made with the session's cache, so it is a function of
 * that history.  The clock is a parameter of each operation.
 */
module SpeechSession {
  import opened Wrappers
  import opened Text
  import Pcm

  /** Samples per recognition stride: `chunk_size[1] * 960` with `chunk_size = [0, 8, 4]`. */
  const ChunkStride: nat := 7680
  /** `silence_timeout`, in seconds. */
  const SilenceTimeout: real := 1.0
  /** `min_sentence_length`. */
  const MinSentenceLength: nat := 1
  /** The sentence-ending marks of `_should_end_sentence`: `。！？.!?`. */
  const EndMarks: seq<char> := ['\U{3002}', '\U{FF01}', '\U{FF1F}', '.', '!', '?']

  /** One `model.generate` call: the samples and whether it is the final pass. */
  datatype ModelCall = ModelCall(input: seq<real>, isFinal: bool)

  /** What a call gives: the text of the first result, no result at all, or an exception. */
  datatype Recognition = Recognised(text: string) | NoResult | Raised(error: string)

  /** The recogniser, answering a call given every earlier call made with the same cache. */
  type Recognizer = (seq<ModelCall>, ModelCall) -> Recognition

  /** A message queued for the browser, before `json.dumps`. */
  datatype OutMessage =
    | UnderwayMsg                          // `{"type": "underway"}`
    | CompleteMsg(text: string, chunk: nat) // `{"type": "complete", "text": ..., "complete": true, "chunk": ...}`
    | ErrorMsg(error: string)              // `{"error": ...}`

  /**
   * The attributes of a `ClientSession`.  `cache` is the history of
   * recogniser calls made with the session's cache; an empty chunk in
   * `audioQueue` is the end-of-stream sentinel.
   */
  datatype SessionState = SessionState(
    audioQueue: seq<seq<real>>,
    cache: seq<ModelCall>,
    buffer: seq<real>,
    active: bool,
    chunkCount: nat,
    sendQueue: seq<OutMessage>,
    recognitionBuffer: string,
    lastActivityTime: real,
    lastAudioTime: real,
    consecutiveSilenceChunks: nat)

  function Fresh(now: real): SessionState {
    SessionState([], [], [], true, 0, [], "", now, now, 0)
  }

  /** `add_message`: one message queued, and the recognition buffer emptied. */
  function Queued(s: SessionState, m: OutMessage): (r: SessionState)
    ensures r.sendQueue == s.sendQueue + [m] && r.recognitionBuffer == ""
    ensures r == s.(sendQueue := r.sendQueue, recognitionBuffer := "")
  {
    s.(sendQueue := s.sendQueue + [m], recognitionBuffer := "")
  }

  /** `update_recognition_result(text)` at time `now`. */
  function Updated(s: SessionState, text: string, now: real): SessionState {
    if text == "" then s
    else
      var s1 := if s.recognitionBuffer == "" then Queued(s, UnderwayMsg) else s;
      s1.(recognitionBuffer := s1.recognitionBuffer + text, lastActivityTime := now)
  }

  /**
   * A partial result: empty text changes nothing; otherwise one `underway`
   * is queued exactly when the buffer was empty, the text is appended to
   * the buffer, and the activity time is now.
   */
  lemma UpdatedFacts(s: SessionState, text: string, now: real)
    ensures text == "" ==> Updated(s, text, now) == s
    ensures text != "" ==> var r := Updated(s, text, now);
      && r.sendQueue == s.sendQueue + (if s.recognitionBuffer == "" then [UnderwayMsg] else [])
      && r.recognitionBuffer == s.recognitionBuffer + text
      && r == s.(sendQueue := r.sendQueue, recognitionBuffer := r.recognitionBuffer, lastActivityTime := now)
  {
    if text != "" && s.recognitionBuffer == "" {
      assert "" + text == text;
    }
  }

  /** Whether `text` contains one of `marks`, checked mark by mark as `any(...)` does. */
  function AnyMarkIn(marks: seq<char>, text: string): bool {
    |marks| > 0 && (marks[0] in text || AnyMarkIn(marks[1..], text))
  }

  lemma {:induction false} AnyMarkInFacts(marks: seq<char>, text: string)
    ensures AnyMarkIn(marks, text) <==> exists i :: 0 <= i < |text| && text[i] in marks
  {
    if |marks| > 0 {
      AnyMarkInFacts(marks[1..], text);
      if marks[0] in text {
        var i :| 0 <= i < |text| && text[i] == marks[0];
        assert text[i] in marks;
      }
      forall i | 0 <= i < |text| && text[i] in marks
        ensures marks[0] in text || exists j :: 0 <= j < |text| && text[j] in marks[1..]
      {
        if text[i] != marks[0] {
          assert text[i] in marks[1..];
        }
      }
    }
  }

  /**
   * `_should_end_sentence`: true exactly when the text is not empty, is at
   * least `min_sentence_length` long and contains one of `。！？.!?`.
   */
  function ShouldEndSentence(text: string): (r: bool)
    ensures r <==> text != "" && |text| >= MinSentenceLength && exists i :: 0 <= i < |text| && text[i] in EndMarks
  {
    AnyMarkInFacts(EndMarks, text);
    if text == "" || |text| < MinSentenceLength then false
    else AnyMarkIn(EndMarks, text)
  }

  /**
   * `_process_complete_sentence`: the stripped sentence, followed by the
   * final pass's text when that is not blank, is queued as one `complete`
   * carrying the chunk count.
   */
  function SentenceOut(s: SessionState, asr: Recognizer, sentence: string): SessionState {
    if sentence == "" || |sentence| < MinSentenceLength then s
    else
      var stripped := Strip(Python, sentence);
      var call := ModelCall([], true);
      var res := asr(s.cache, call);
      var text := if res.Recognised? && Strip(Python, res.text) != "" then stripped + res.text else stripped;
      Queued(s.(cache := s.cache + [call]), CompleteMsg(text, s.chunkCount))
  }

  /** `check_sentence_completion` at time `now`. */
  function Checked(s: SessionState, asr: Recognizer, now: real): SessionState {
    if s.recognitionBuffer != "" && now - s.lastActivityTime > SilenceTimeout
       && |s.recognitionBuffer| >= MinSentenceLength
    then SentenceOut(s, asr, s.recognitionBuffer).(recognitionBuffer := "")
    else s
  }

  /** `force_sentence_completion(force)`. */
  function Forced(s: SessionState, asr: Recognizer, force: bool): SessionState {
    if s.recognitionBuffer != "" && (force || |s.recognitionBuffer| >= MinSentenceLength)
    then SentenceOut(s, asr, s.recognitionBuffer).(recognitionBuffer := "")
    else s
  }

  /** The `complete` message a non-empty recognition buffer becomes. */
  predicate IsCompleteFor(m: OutMessage, s: SessionState) {
    m.CompleteMsg? && m.chunk == s.chunkCount && StartsWith(m.text, Strip(Python, s.recognitionBuffer))
  }

  /**
   * A silence timeout queues one `complete` and empties the buffer exactly
   * when the buffer is not empty, more than a second has passed since the
   * last partial result and the buffer is long enough; otherwise nothing
   * changes.
   */
  lemma CheckedFacts(s: SessionState, asr: Recognizer, now: real)
    ensures var r := Checked(s, asr, now);
      var due := s.recognitionBuffer != "" && now - s.lastActivityTime > SilenceTimeout
        && |s.recognitionBuffer| >= MinSentenceLength;
      && (due ==> (r.recognitionBuffer == "" && |r.sendQueue| == |s.sendQueue| + 1
            && r.sendQueue[..|s.sendQueue|] == s.sendQueue && IsCompleteFor(r.sendQueue[|s.sendQueue|], s)))
      && (!due ==> r == s)
      && r.buffer == s.buffer && r.consecutiveSilenceChunks == s.consecutiveSilenceChunks
      && s.cache <= r.cache && s.sendQueue <= r.sendQueue
  {
    if s.recognitionBuffer != "" && now - s.lastActivityTime > SilenceTimeout {
      SentenceOutFacts(s, asr);
    }
  }

  /**
   * Forcing queues at most one message, a `complete` for the buffer, and
   * does so exactly when the buffer is not empty, whether or not `force`
   * is set; the buffer is empty afterwards.
   */
  lemma ForcedFacts(s: SessionState, asr: Recognizer, force: bool)
    ensures var r := Forced(s, asr, force);
      && r.recognitionBuffer == ""
      && (s.recognitionBuffer == "" ==> r == s)
      && (s.recognitionBuffer != "" ==> (|r.sendQueue| == |s.sendQueue| + 1
            && r.sendQueue[..|s.sendQueue|] == s.sendQueue && IsCompleteFor(r.sendQueue[|s.sendQueue|], s)))
  {
    if s.recognitionBuffer != "" {
      SentenceOutFacts(s, asr);
    }
  }

  lemma SentenceOutFacts(s: SessionState, asr: Recognizer)
    requires s.recognitionBuffer != ""
    ensures var r := SentenceOut(s, asr, s.recognitionBuffer);
      && |r.sendQueue| == |s.sendQueue| + 1
      && r.sendQueue[..|s.sendQueue|] == s.sendQueue && IsCompleteFor(r.sendQueue[|s.sendQueue|], s)
  {
    var r := SentenceOut(s, asr, s.recognitionBuffer);
    assert r.sendQueue[..|s.sendQueue|] == s.sendQueue;
    var stripped := Strip(Python, s.recognitionBuffer);
    var res := asr(s.cache, ModelCall([], true));
    if res.Recognised? && Strip(Python, res.text) != "" {
      assert (stripped + res.text)[..|stripped|] == stripped;
    }
  }

  /** One stride given to the recogniser, as the body of the inner loop of `process_audio` does. */
  function Recognise(s: SessionState, asr: Recognizer, chunk: seq<real>, now: real): SessionState
  {
    var call := ModelCall(chunk, false);
    var res := asr(s.cache, call);
    var s1 := s.(cache := s.cache + [call]);
    match res
    case Recognised(t) =>
      var s2 := if t != "" then Updated(s1, Strip(Python, t), now) else s1;
      s2.(chunkCount := s2.chunkCount + 1)
    case NoResult => s1.(chunkCount := s1.chunkCount + 1)
    case Raised(e) => Queued(s1, ErrorMsg(e))
  }

  /**
   * One stride makes one recogniser call, recorded in the cache; the chunk
   * count goes up unless the call raised; messages are only added; the
   * sample buffer and the silence count are untouched.  A recognised text
   * is stripped and joins the recognition buffer as a partial result.  A
   * call that raises queues exactly its error message, and, because that
   * goes through `add_message`, the pending partial text is dropped.
   */
  lemma RecogniseFacts(s: SessionState, asr: Recognizer, chunk: seq<real>, now: real)
    ensures var r := Recognise(s, asr, chunk, now);
      && r.buffer == s.buffer && r.consecutiveSilenceChunks == s.consecutiveSilenceChunks
      && r.cache == s.cache + [ModelCall(chunk, false)]
      && r.chunkCount == s.chunkCount + (if asr(s.cache, ModelCall(chunk, false)).Raised? then 0 else 1)
      && s.sendQueue <= r.sendQueue
    ensures var res := asr(s.cache, ModelCall(chunk, false));
      var s1 := s.(cache := s.cache + [ModelCall(chunk, false)]);
      var r := Recognise(s, asr, chunk, now);
      && (res.Raised? ==>
            r.sendQueue == s.sendQueue + [ErrorMsg(res.error)] && r.recognitionBuffer == ""
            && r == s1.(sendQueue := r.sendQueue, recognitionBuffer := ""))
      && (res.Recognised? ==> r == Updated(s1, Strip(Python, res.text), now).(chunkCount := s.chunkCount + 1))
      && (res.NoResult? ==> r == s1.(chunkCount := s.chunkCount + 1))
  {
    var call := ModelCall(chunk, false);
    var s1 := s.(cache := s.cache + [call]);
    match asr(s.cache, call)
    case Recognised(t) =>
      if t != "" {
        UpdatedFacts(s1, Strip(Python, t), now);
      }
    case NoResult =>
    case Raised(e) =>
  }

  /** The inner loop of `process_audio`: strides are cut from the front of the buffer while it holds one. */
  function Strided(s: SessionState, asr: Recognizer, now: real): SessionState
    decreases |s.buffer|
  {
    if |s.buffer| < ChunkStride then s
    else
      var rest := s.(buffer := s.buffer[ChunkStride..]);
      RecogniseFacts(rest, asr, s.buffer[..ChunkStride], now);
      Strided(Recognise(rest, asr, s.buffer[..ChunkStride], now), asr, now)
  }

  /** The strides of `b`, in order: as many whole strides as it holds. */
  function Cut(b: seq<real>): seq<seq<real>>
    decreases |b|
  {
    if |b| < ChunkStride then [] else [b[..ChunkStride]] + Cut(b[ChunkStride..])
  }

  function Flatten<T>(ss: seq<seq<T>>): seq<T> {
    if ss == [] then [] else ss[0] + Flatten(ss[1..])
  }

  lemma FlattenCons<T>(x: seq<T>, ss: seq<seq<T>>)
    ensures Flatten([x] + ss) == x + Flatten(ss)
  {
    assert ([x] + ss)[1..] == ss;
  }

  lemma Rejoin<T>(a: seq<T>, b: seq<T>, c: seq<T>, d: seq<T>)
    requires b + c == d
    ensures (a + b) + c == a + d
  {
  }

  lemma SplitAt<T>(s: seq<T>, n: nat)
    requires n <= |s|
    ensures s[..n] + s[n..] == s
  {
  }

  /** The recogniser calls made for a list of strides. */
  function StrideCalls(chunks: seq<seq<real>>): (r: seq<ModelCall>)
    ensures |r| == |chunks| && forall i :: 0 <= i < |r| ==> r[i] == ModelCall(chunks[i], false)
  {
    seq(|chunks|, i requires 0 <= i < |chunks| => ModelCall(chunks[i], false))
  }

  lemma StrideCallsCons(x: seq<real>, cs: seq<seq<real>>)
    ensures StrideCalls([x] + cs) == [ModelCall(x, false)] + StrideCalls(cs)
  {
    assert StrideCalls([x] + cs) == [ModelCall(x, false)] + StrideCalls(cs);
  }

  /** How many of the calls `cache[from..]` did not raise, each answered given the calls before it. */
  function Succeeded(asr: Recognizer, cache: seq<ModelCall>, from: nat): nat
    requires from <= |cache|
    decreases |cache| - from
  {
    if from == |cache| then 0
    else (if asr(cache[..from], cache[from]).Raised? then 0 else 1) + Succeeded(asr, cache, from + 1)
  }

  /** What is left of `b` once its strides are cut: fewer than `ChunkStride` samples. */
  function Leftover(b: seq<real>): seq<real>
    decreases |b|
  {
    if |b| < ChunkStride then b else Leftover(b[ChunkStride..])
  }

  /**
   * Every stride has exactly `ChunkStride` samples, fewer than that are
   * left over, and the strides followed by what is left are the buffer: no
   * sample is lost, duplicated or reordered.
   */
  lemma {:induction false} CutFacts(b: seq<real>)
    ensures forall i :: 0 <= i < |Cut(b)| ==> |Cut(b)[i]| == ChunkStride
    ensures Flatten(Cut(b)) + Leftover(b) == b
    ensures |Leftover(b)| < ChunkStride
    decreases |b|
  {
    if |b| >= ChunkStride {
      var head, rest := b[..ChunkStride], b[ChunkStride..];
      CutFacts(rest);
      assert Cut(b) == [head] + Cut(rest);
      FlattenCons(head, Cut(rest));
      Rejoin(head, Flatten(Cut(rest)), Leftover(rest), rest);
      SplitAt(b, ChunkStride);
    }
  }

  /** The inner loop leaves exactly the leftover of the buffer, keeps the silence count and only adds to the send queue. */
  lemma {:induction false} StridedLeftover(s: SessionState, asr: Recognizer, now: real)
    ensures var r := Strided(s, asr, now);
      && r.buffer == Leftover(s.buffer)
      && r.consecutiveSilenceChunks == s.consecutiveSilenceChunks
      && s.sendQueue <= r.sendQueue
    decreases |s.buffer|
  {
    if |s.buffer| >= ChunkStride {
      var s0 := s.(buffer := s.buffer[ChunkStride..]);
      RecogniseFacts(s0, asr, s.buffer[..ChunkStride], now);
      StridedLeftover(Recognise(s0, asr, s.buffer[..ChunkStride], now), asr, now);
    }
  }

  /** The inner loop calls the recogniser once per stride, in order. */
  lemma {:induction false} StridedCalls(s: SessionState, asr: Recognizer, now: real)
    ensures Strided(s, asr, now).cache == s.cache + StrideCalls(Cut(s.buffer))
    decreases |s.buffer|
  {
    if |s.buffer| >= ChunkStride {
      var chunk := s.buffer[..ChunkStride];
      var rest := s.buffer[ChunkStride..];
      RecogniseFacts(s.(buffer := rest), asr, chunk, now);
      var s1 := Recognise(s.(buffer := rest), asr, chunk, now);
      StridedCalls(s1, asr, now);
      assert Cut(s.buffer) == [chunk] + Cut(rest);
      StrideCallsCons(chunk, Cut(rest));
      Rejoin(s.cache, [ModelCall(chunk, false)], StrideCalls(Cut(rest)), StrideCalls(Cut(s.buffer)));
    }
  }

  /** The inner loop adds one to the chunk count for each stride whose call did not raise. */
  lemma {:induction false} StridedCount(s: SessionState, asr: Recognizer, now: real)
    ensures var r := Strided(s, asr, now);
      |s.cache| <= |r.cache| && r.chunkCount == s.chunkCount + Succeeded(asr, r.cache, |s.cache|)
    decreases |s.buffer|
  {
    StridedCalls(s, asr, now);
    if |s.buffer| >= ChunkStride {
      var chunk := s.buffer[..ChunkStride];
      RecogniseFacts(s.(buffer := s.buffer[ChunkStride..]), asr, chunk, now);
      var s1 := Recognise(s.(buffer := s.buffer[ChunkStride..]), asr, chunk, now);
      StridedCount(s1, asr, now);
      StridedCalls(s1, asr, now);
      var r := Strided(s1, asr, now);
      assert r.cache[..|s.cache|] == s.cache;
      assert r.cache[|s.cache|] == ModelCall(chunk, false);
    }
  }

  /**
   * One turn of the outer loop of `process_audio`, given the silence test
   * and the time: an inactive session stops; with nothing queued, only the
   * timeout is checked; the empty sentinel stops the loop before the
   * silence count is touched; any other chunk is absorbed.  The second
   * component says whether the loop ends.
   */
  function AudioStep(s: SessionState, asr: Recognizer, isSilent: seq<real> -> bool, now: real): (SessionState, bool) {
    if !s.active then (s, true)
    else if s.audioQueue == [] then (Checked(s, asr, now), false)
    else
      var chunk := s.audioQueue[0];
      var s1 := s.(audioQueue := s.audioQueue[1..]);
      if chunk == [] then (s1, true)
      else (Absorbed(s1, asr, isSilent, chunk, now), false)
  }

  /** A chunk taken off the queue: the silence count is updated, the chunk joins the buffer, strides are recognised and the timeout is checked. */
  function Absorbed(s: SessionState, asr: Recognizer, isSilent: seq<real> -> bool, chunk: seq<real>, now: real): SessionState {
    var s1 := if isSilent(chunk) then s.(consecutiveSilenceChunks := s.consecutiveSilenceChunks + 1)
              else s.(consecutiveSilenceChunks := 0, lastAudioTime := now);
    Checked(Strided(s1.(buffer := s1.buffer + chunk), asr, now), asr, now)
  }

  /**
   * Absorbing a chunk counts it as silent or resets the count, leaves the
   * leftover of the old buffer followed by the chunk, and recognises each
   * whole stride of that, in order, before anything else is asked of the
   * recogniser.
   */
  lemma AbsorbedFacts(s: SessionState, asr: Recognizer, isSilent: seq<real> -> bool, chunk: seq<real>, now: real)
    ensures var r := Absorbed(s, asr, isSilent, chunk, now);
      && r.consecutiveSilenceChunks == (if isSilent(chunk) then s.consecutiveSilenceChunks + 1 else 0)
      && r.buffer == Leftover(s.buffer + chunk)
      && s.cache + StrideCalls(Cut(s.buffer + chunk)) <= r.cache
      && s.sendQueue <= r.sendQueue
  {
    var s1 := if isSilent(chunk) then s.(consecutiveSilenceChunks := s.consecutiveSilenceChunks + 1)
              else s.(consecutiveSilenceChunks := 0, lastAudioTime := now);
    var s2 := s1.(buffer := s1.buffer + chunk);
    assert s2.buffer == s.buffer + chunk && s2.cache == s.cache && s2.sendQueue == s.sendQueue;
    var s3 := Strided(s2, asr, now);
    StridedLeftover(s2, asr, now);
    StridedCalls(s2, asr, now);
    CheckedFacts(s3, asr, now);
  }

  /** The empty sentinel ends the loop, and only it: nothing else of the session changes but the queue. */
  lemma AudioStepSentinel(s: SessionState, asr: Recognizer, isSilent: seq<real> -> bool, now: real)
    requires s.active && s.audioQueue != []
    ensures AudioStep(s, asr, isSilent, now).1 <==> s.audioQueue[0] == []
    ensures s.audioQueue[0] == [] ==> AudioStep(s, asr, isSilent, now).0 == s.(audioQueue := s.audioQueue[1..])
  {
  }

  /**
   * After the outer loop: the samples left in the buffer get a final pass,
   * and the recognition buffer is then forced out unless it is shorter
   * than `min_sentence_length`.
   */
  function Finished(s: SessionState, asr: Recognizer, now: real): SessionState {
    Forced(FinalPass(s, asr, now), asr, false)
  }

  /** The final recogniser pass over the leftover samples, whose exception is swallowed. */
  function FinalPass(s: SessionState, asr: Recognizer, now: real): SessionState {
    if |s.buffer| > 0 then
      var call := ModelCall(s.buffer, true);
      var res := asr(s.cache, call);
      var s0 := s.(cache := s.cache + [call]);
      if res.Recognised? && res.text != "" then Updated(s0, Strip(Python, res.text), now) else s0
    else s
  }

  /** `stop`: the session turns inactive and the empty sentinel is queued to wake the processing loop. */
  function Stopped(s: SessionState): SessionState {
    s.(active := false, audioQueue := s.audioQueue + [[]])
  }

  /**
   * The final pass and forced completion leave nothing in the recognition
   * buffer and only add to the send queue; a non-empty recognition buffer,
   * or a final pass with text, always yields a `complete`.
   */
  lemma FinishedFacts(s: SessionState, asr: Recognizer, now: real)
    ensures var r := Finished(s, asr, now);
      && r.recognitionBuffer == "" && r.active == s.active && s.sendQueue <= r.sendQueue
      && (s.recognitionBuffer != "" ==> exists k :: |s.sendQueue| <= k < |r.sendQueue| && r.sendQueue[k].CompleteMsg?)
  {
    var s1 := FinalPass(s, asr, now);
    if |s.buffer| > 0 {
      var call := ModelCall(s.buffer, true);
      var res := asr(s.cache, call);
      if res.Recognised? && res.text != "" {
        UpdatedFacts(s.(cache := s.cache + [call]), Strip(Python, res.text), now);
      }
    }
    assert s.sendQueue <= s1.sendQueue;
    assert s.recognitionBuffer != "" ==> s1.recognitionBuffer != "";
    ForcedFacts(s1, asr, false);
    if s1.recognitionBuffer != "" {
      var r := Finished(s, asr, now);
      assert r.sendQueue[|s1.sendQueue|].CompleteMsg?;
    }
  }

  /**
   * The `process_audio` thread over a run of clock readings, one per turn
   * of its loop: once a turn ends the loop, the final pass runs and the
   * thread is over (`true`); if the readings run out first, the thread is
   * still running (`false`).
   */
  function Processed(s: SessionState, asr: Recognizer, isSilent: seq<real> -> bool, clock: seq<real>): (SessionState, bool)
    decreases |clock|
  {
    if clock == [] then (s, false)
    else
      var (s1, finished) := AudioStep(s, asr, isSilent, clock[0]);
      if finished then (Finished(s1, asr, clock[0]), true)
      else Processed(s1, asr, isSilent, clock[1..])
  }

  /** A thread that is over has left nothing in the recognition buffer. */
  lemma {:induction false} ProcessedDrains(s: SessionState, asr: Recognizer, isSilent: seq<real> -> bool, clock: seq<real>)
    ensures Processed(s, asr, isSilent, clock).1 ==> Processed(s, asr, isSilent, clock).0.recognitionBuffer == ""
    decreases |clock|
  {
    if clock != [] {
      var (s1, finished) := AudioStep(s, asr, isSilent, clock[0]);
      if finished {
        FinishedFacts(s1, asr, clock[0]);
      } else {
        ProcessedDrains(s1, asr, isSilent, clock[1..]);
      }
    }
  }

  /** A stopped session's thread is over after one more turn, whatever is still queued. */
  lemma StoppedEndsThread(s: SessionState, asr: Recognizer, isSilent: seq<real> -> bool, clock: seq<real>)
    requires clock != []
    ensures Processed(Stopped(s), asr, isSilent, clock) == (Finished(Stopped(s), asr, clock[0]), true)
  {
  }

  /** A frame the browser sends on the socket. */
  datatype Frame = Binary(bytes: seq<Pcm.byte>) | Text(text: string)

  /** What the handler sends back directly on the socket. */
  datatype Reply = StartedReply | StoppedReply | AudioError

  /**
   * The `ClientSession` object.  `st` holds its attributes; `asr` is the
   * recogniser and `isSilent` the RMS silence test, which stand for the
   * shared FunASR model and the floating-point energy computation.
   * `threadOver` says whether the handler's `processing_thread`, which runs
   * `process_audio` on this session, has returned.
   */
  class ClientSession {
    const asr: Recognizer
    const isSilent: seq<real> -> bool
    var st: SessionState
    var threadOver: bool

    constructor(asr: Recognizer, isSilent: seq<real> -> bool, now: real)
      ensures this.asr == asr && this.isSilent == isSilent
      ensures st == Fresh(now) && !threadOver
    {
      this.asr := asr;
      this.isSilent := isSilent;
      st := Fresh(now);
      threadOver := false;
    }

    /** `add_audio`: the samples join the audio queue. */
    method AddAudio(data: seq<real>)
      modifies this`st
      ensures st == old(st).(audioQueue := old(st.audioQueue) + [data])
    {
      st := st.(audioQueue := st.audioQueue + [data]);
    }

    /** `add_message`: one message is queued and the recognition buffer is emptied. */
    method AddMessage(m: OutMessage)
      modifies this`st
      ensures st == Queued(old(st), m)
    {
      st := st.(sendQueue := st.sendQueue + [m]);
      st := st.(recognitionBuffer := "");
    }

    /** `update_recognition_result`, at time `now`. */
    method UpdateRecognitionResult(newText: string, now: real)
      modifies this`st
      ensures st == Updated(old(st), newText, now)
    {
      if newText == "" {
        return;
      }
      if st.recognitionBuffer == "" {
        AddMessage(UnderwayMsg);
      }
      st := st.(recognitionBuffer := st.recognitionBuffer + newText);
      st := st.(lastActivityTime := now);
    }

    /** `_process_complete_sentence`. */
    method ProcessCompleteSentence(sentence: string)
      modifies this`st
      ensures st == SentenceOut(old(st), asr, sentence)
    {
      if sentence == "" || |sentence| < MinSentenceLength {
        return;
      }
      var text := Strip(Python, sentence);
      var call := ModelCall([], true);
      var finalRes := asr(st.cache, call);
      st := st.(cache := st.cache + [call]);
      if finalRes.Recognised? && Strip(Python, finalRes.text) != "" {
        text := text + finalRes.text;
      }
      AddMessage(CompleteMsg(text, st.chunkCount));
    }

    /** `check_sentence_completion`, at time `now`. */
    method CheckSentenceCompletion(now: real)
      modifies this`st
      ensures st == Checked(old(st), asr, now)
    {
      if st.recognitionBuffer != "" && now - st.lastActivityTime > SilenceTimeout
         && |st.recognitionBuffer| >= MinSentenceLength {
        ProcessCompleteSentence(st.recognitionBuffer);
        st := st.(recognitionBuffer := "");
      }
    }

    /** `force_sentence_completion(force)`. */
    method ForceSentenceCompletion(force: bool)
      modifies this`st
      ensures st == Forced(old(st), asr, force)
    {
      if st.recognitionBuffer != "" && (force || |st.recognitionBuffer| >= MinSentenceLength) {
        ProcessCompleteSentence(st.recognitionBuffer);
        st := st.(recognitionBuffer := "");
      }
    }

    /** `stop`. */
    method Stop()
      modifies this`st
      ensures st == Stopped(old(st))
    {
      st := st.(active := false);
      st := st.(audioQueue := st.audioQueue + [[]]);
    }

    /** The body of the inner loop of `process_audio` for one stride, up to its `except`. */
    method RecognizeChunk(speechChunk: seq<real>, now: real)
      modifies this`st
      ensures st == Recognise(old(st), asr, speechChunk, now)
    {
      var call := ModelCall(speechChunk, false);
      var res := asr(st.cache, call);
      match res {
        case Raised(e) =>
          st := st.(cache := st.cache + [call], sendQueue := st.sendQueue + [ErrorMsg(e)], recognitionBuffer := "");
        case NoResult =>
          st := st.(cache := st.cache + [call], chunkCount := st.chunkCount + 1);
        case Recognised(t) =>
          st := st.(cache := st.cache + [call]);
          if t != "" {
            UpdateRecognitionResult(Strip(Python, t), now);
          }
          st := st.(chunkCount := st.chunkCount + 1);
      }
    }

    /** The inner loop of `process_audio`: cuts and recognises strides while the buffer holds one. */
    method RecognizeStrides(now: real)
      modifies this`st
      ensures st == Strided(old(st), asr, now)
    {
      while |st.buffer| >= ChunkStride
        invariant Strided(st, asr, now) == Strided(old(st), asr, now)
        decreases |st.buffer|
      {
        var speechChunk := st.buffer[..ChunkStride];
        st := st.(buffer := st.buffer[ChunkStride..]);
        RecognizeChunk(speechChunk, now);
      }
    }

    /** One turn of the outer loop of `process_audio`, at time `now`. */
    method ProcessAudioStep(now: real) returns (finished: bool)
      modifies this`st
      ensures (st, finished) == AudioStep(old(st), asr, isSilent, now)
    {
      if !st.active {
        return true;
      }
      if st.audioQueue == [] {
        CheckSentenceCompletion(now);
        return false;
      }
      var audioChunk := st.audioQueue[0];
      st := st.(audioQueue := st.audioQueue[1..]);
      if audioChunk == [] {
        return true;
      }
      AbsorbChunk(audioChunk, now);
      finished := false;
    }

    /** The rest of one turn of the outer loop of `process_audio`, for a chunk taken off the queue. */
    method AbsorbChunk(audioChunk: seq<real>, now: real)
      modifies this`st
      ensures st == Absorbed(old(st), asr, isSilent, audioChunk, now)
    {
      ghost var start := st;
      var counted := if isSilent(audioChunk) then st.(consecutiveSilenceChunks := st.consecutiveSilenceChunks + 1)
                     else st.(consecutiveSilenceChunks := 0, lastAudioTime := now);
      var joined := counted.(buffer := counted.buffer + audioChunk);
      assert Absorbed(start, asr, isSilent, audioChunk, now) == Checked(Strided(joined, asr, now), asr, now);
      st := joined;
      RecognizeStrides(now);
      CheckSentenceCompletion(now);
    }

    /**
     * The `process_audio` thread, one turn of its loop per clock reading.
     * Once the thread has returned it runs no more.
     */
    method ProcessAudio(clock: seq<real>) returns (ended: bool)
      modifies this
      ensures old(threadOver) ==> ended && threadOver && st == old(st)
      ensures !old(threadOver) ==> (st, ended) == Processed(old(st), asr, isSilent, clock) && threadOver == ended
    {
      if threadOver {
        return true;
      }
      var i := 0;
      while i < |clock|
        invariant 0 <= i <= |clock| && !threadOver
        invariant Processed(st, asr, isSilent, clock[i..]) == Processed(old(st), asr, isSilent, clock)
      {
        assert clock[i..][1..] == clock[i + 1..];
        var finished := ProcessAudioStep(clock[i]);
        if finished {
          FinishAudio(clock[i]);
          threadOver := true;
          return true;
        }
        i := i + 1;
      }
      return false;
    }

    /** What `process_audio` does after its loop, at time `now`. */
    method FinishAudio(now: real)
      modifies this`st
      ensures st == Finished(old(st), asr, now)
    {
      if |st.buffer| > 0 {
        var call := ModelCall(st.buffer, true);
        var res := asr(st.cache, call);
        st := st.(cache := st.cache + [call]);
        if res.Recognised? && res.text != "" {
          var finalText := Strip(Python, res.text);
          if finalText != "" {
            UpdateRecognitionResult(finalText, now);
          }
        }
      }
      ForceSentenceCompletion(false);
    }
  }

  /**
   * One frame in `audio_websocket_handler`: binary frames are read as
   * little-endian 16-bit samples scaled into [-1, 1) and queued, or
   * answered with an error when their length is odd; `"start"` is answered
   * with `started`; `"stop"` closes the session, is answered with `stopped`
   * and ends the loop, after which the handler's `finally` closes it once
   * more; any other text is ignored.  `joined` and `rejoined` say whether
   * the processing thread ends within the command's two-second join and
   * within the one in `finally`, and `now` is the time it does so.
   */
  method HandleFrame(session: ClientSession, frame: Frame, joined: bool, rejoined: bool, now: real)
    returns (reply: Option<Reply>, done: bool)
    modifies session
    ensures frame != Text("stop") ==> session.threadOver == old(session.threadOver)
    ensures frame.Binary? ==> !done && match Pcm.DecodePcm(frame.bytes)
      case Refused => reply == Some(AudioError) && session.st == old(session.st)
      case Samples(xs) => reply == None && session.st == old(session.st).(audioQueue := old(session.st.audioQueue) + [Pcm.Normalize(xs)])
    ensures frame == Text("start") ==> reply == Some(StartedReply) && !done && session.st == old(session.st)
    ensures frame == Text("stop") ==>
      && reply == Some(StoppedReply) && done
      && var over := old(session.threadOver);
         var once := Closed(old(session.st), session.asr, joined && !over, now);
         && session.st == Closed(once, session.asr, rejoined && !(over || joined), now)
         && session.threadOver == (over || joined || rejoined)
    ensures frame.Text? && frame.text != "start" && frame.text != "stop" ==>
      reply == None && !done && session.st == old(session.st)
  {
    match frame {
      case Binary(bytes) =>
        match Pcm.DecodePcm(bytes) {
          case Refused =>
            return Some(AudioError), false;
          case Samples(xs) =>
            session.AddAudio(Pcm.Normalize(xs));
            return None, false;
        }
      case Text(text) =>
        if text == "stop" {
          CloseSession(session, joined, now);
          CloseSession(session, rejoined, now);
          return Some(StoppedReply), true;
        } else if text == "start" {
          return Some(StartedReply), false;
        }
        return None, false;
    }
  }

  /**
   * Closing a session, as the `"stop"` command and the handler's `finally`
   * both do: the session is stopped, the processing thread's final pass
   * runs if `joined` (the thread was still running and ends within the
   * join), and the pending sentence is forced out.
   */
  function Closed(s: SessionState, asr: Recognizer, joined: bool, now: real): SessionState {
    var s1 := Stopped(s);
    Forced(if joined then Finished(s1, asr, now) else s1, asr, true)
  }

  /**
   * A closed session is inactive and has nothing left in its recognition
   * buffer; its send queue only grew.  A pending partial result is never
   * dropped: with a non-empty buffer, a `complete` is queued.
   */
  lemma ClosedFacts(s: SessionState, asr: Recognizer, joined: bool, now: real)
    ensures var r := Closed(s, asr, joined, now);
      && !r.active && r.recognitionBuffer == "" && s.sendQueue <= r.sendQueue
      && (s.recognitionBuffer != "" ==> exists k :: |s.sendQueue| <= k < |r.sendQueue| && r.sendQueue[k].CompleteMsg?)
  {
    var s1 := Stopped(s);
    if joined {
      FinishedFacts(s1, asr, now);
      ForcedFacts(Finished(s1, asr, now), asr, true);
    } else {
      ForcedFacts(s1, asr, true);
      if s.recognitionBuffer != "" {
        var r := Closed(s, asr, joined, now);
        assert r.sendQueue[|s.sendQueue|].CompleteMsg?;
      }
    }
  }

  /**
   * Once a session is closed, closing it again, as the handler's `finally`
   * does after `"stop"`, adds nothing when the thread's final pass does not
   * run: only another end-of-stream sentinel is queued.
   */
  lemma ClosedAgainAddsNothing(s: SessionState, asr: Recognizer, joined: bool, now: real, later: real)
    ensures var once := Closed(s, asr, joined, now);
      Closed(once, asr, false, later) == once.(audioQueue := once.audioQueue + [[]])
  {
    ClosedFacts(s, asr, joined, now);
  }

  /**
   * The handler's `finally`, and the `"stop"` command before its reply.
   * The join returns at once on a thread that is already over, so its
   * final pass runs only if the thread was still running and ends within
   * the join.
   */
  method CloseSession(session: ClientSession, joined: bool, now: real)
    modifies session
    ensures session.st == Closed(old(session.st), session.asr, joined && !old(session.threadOver), now)
    ensures session.threadOver == (old(session.threadOver) || joined)
  {
    session.Stop();
    if joined && !session.threadOver {
      session.FinishAudio(now);
    }
    session.threadOver := session.threadOver || joined;
    session.ForceSentenceCompletion(true);
  }

  /** A word with no whitespace at either end strips to itself. */
  lemma StripUnpadded(f: Flavour, w: string)
    requires w != [] && !IsSpace(f, w[0]) && !IsSpace(f, w[|w| - 1])
    ensures Strip(f, w) == w
  {
    assert TrimStart(f, w) == w;
  }

  /**
   * A chunk that leaves the sample buffer short of a stride only joins it:
   * no stride is recognised, so the chunk count stays, and the silence
   * count is updated.  Only the silence timeout can still call the model,
   * to complete a pending sentence; with no partial text nothing is called
   * or queued.
   */
  lemma ShortChunkWaits(s: SessionState, asr: Recognizer, isSilent: seq<real> -> bool, chunk: seq<real>, now: real)
    requires |s.buffer| + |chunk| < ChunkStride
    ensures var r := Absorbed(s, asr, isSilent, chunk, now);
      && r.buffer == s.buffer + chunk && r.chunkCount == s.chunkCount
      && r.consecutiveSilenceChunks == (if isSilent(chunk) then s.consecutiveSilenceChunks + 1 else 0)
      && s.cache <= r.cache && s.sendQueue <= r.sendQueue
      && (s.recognitionBuffer == "" ==> r.cache == s.cache && r.sendQueue == s.sendQueue)
  {
    var s1 := if isSilent(chunk) then s.(consecutiveSilenceChunks := s.consecutiveSilenceChunks + 1)
              else s.(consecutiveSilenceChunks := 0, lastAudioTime := now);
    var s2 := s1.(buffer := s1.buffer + chunk);
    assert Strided(s2, asr, now) == s2;
    CheckedFacts(s2, asr, now);
  }

  /** A first chunk shorter than a stride stays in the sample buffer: nothing is recognised or sent. */
  lemma FirstShortChunkWaits(samples: seq<real>, asr: Recognizer, isSilent: seq<real> -> bool)
    requires 0 < |samples| < ChunkStride && !isSilent(samples)
    ensures Processed(Fresh(0.0).(audioQueue := [samples]), asr, isSilent, [0.5])
      == (Fresh(0.0).(buffer := samples, lastAudioTime := 0.5), false)
  {
    var s := Fresh(0.0).(audioQueue := [samples]);
    var s1 := s.(audioQueue := []);
    assert s.audioQueue[1..] == [];
    assert AudioStep(s, asr, isSilent, 0.5) == (Absorbed(s1, asr, isSilent, samples, 0.5), false);
    var s2 := s1.(consecutiveSilenceChunks := 0, lastAudioTime := 0.5);
    assert s2.buffer + samples == samples;
    assert Strided(s2.(buffer := samples), asr, 0.5) == s2.(buffer := samples);
  }

  /**
   * Closing after the thread has joined, with samples left over and no
   * partial text yet: when the final pass hears `word` and the final
   * completion call hears nothing, `word` is queued as `underway` and then,
   * by the forced completion, as one `complete` carrying the chunk count.
   */
  lemma LeftoverFlushedOnClose(s: SessionState, asr: Recognizer, word: string, now: real)
    requires s.buffer != [] && s.recognitionBuffer == ""
    requires word != [] && !IsPythonSpace(word[0]) && !IsPythonSpace(word[|word| - 1])
    requires asr(s.cache, ModelCall(s.buffer, true)) == Recognised(word)
    requires asr(s.cache + [ModelCall(s.buffer, true)], ModelCall([], true)) == NoResult
    ensures Closed(s, asr, true, now).sendQueue == s.sendQueue + [UnderwayMsg, CompleteMsg(word, s.chunkCount)]
  {
    var s1 := Stopped(s);
    FinalPassHears(s1, asr, word, now);
    var heard := FinalPass(s1, asr, now);
    var flushed := ForcedWord(heard, asr, word);
    assert Finished(s1, asr, now) == flushed;
    assert Forced(flushed, asr, true) == flushed;
  }

  lemma FinalPassHears(s: SessionState, asr: Recognizer, word: string, now: real)
    requires s.buffer != [] && s.recognitionBuffer == ""
    requires word != [] && !IsPythonSpace(word[0]) && !IsPythonSpace(word[|word| - 1])
    requires asr(s.cache, ModelCall(s.buffer, true)) == Recognised(word)
    ensures FinalPass(s, asr, now) == s.(cache := s.cache + [ModelCall(s.buffer, true)],
      sendQueue := s.sendQueue + [UnderwayMsg], recognitionBuffer := word, lastActivityTime := now)
  {
    StripUnpadded(Python, word);
    assert "" + word == word;
  }

  lemma ForcedWord(heard: SessionState, asr: Recognizer, word: string) returns (flushed: SessionState)
    requires word != [] && !IsPythonSpace(word[0]) && !IsPythonSpace(word[|word| - 1])
    requires heard.recognitionBuffer == word
    requires asr(heard.cache, ModelCall([], true)) == NoResult
    ensures flushed == Forced(heard, asr, false)
    ensures flushed.recognitionBuffer == "" && flushed.sendQueue == heard.sendQueue + [CompleteMsg(word, heard.chunkCount)]
  {
    StripUnpadded(Python, word);
    flushed := Forced(heard, asr, false);
  }

  /**
   * Less than one stride of speech, then `"stop"`: no stride is ever cut,
   * so the words are queued for the browser only by the final pass over
   * the leftover samples, as an `underway` followed by one `complete` whose
   * chunk count is still zero; the `finally` that follows queues nothing
   * more.
   */
  method ShortUtteranceOnStop(pcm: seq<Pcm.byte>, word: string) returns (queued: seq<OutMessage>, reply: Option<Reply>)
    requires 0 < |pcm| < 2 * ChunkStride && |pcm| % 2 == 0
    requires word != [] && !IsPythonSpace(word[0]) && !IsPythonSpace(word[|word| - 1])
    ensures reply == Some(StoppedReply)
    ensures queued == [UnderwayMsg, CompleteMsg(word, 0)]
  {
    var asr: Recognizer := (cache: seq<ModelCall>, call: ModelCall) =>
      if call.isFinal && call.input != [] then Recognised(word) else NoResult;
    var session := new ClientSession(asr, (chunk: seq<real>) => false, 0.0);
    var r0, d0 := HandleFrame(session, Binary(pcm), false, false, 0.0);
    var samples := Pcm.Normalize(Pcm.DecodePcm(pcm).samples);
    assert session.st == Fresh(0.0).(audioQueue := [samples]);
    FirstShortChunkWaits(samples, asr, (chunk: seq<real>) => false);
    var ended := session.ProcessAudio([0.5]);
    var s := Fresh(0.0).(buffer := samples, lastAudioTime := 0.5);
    LeftoverFlushedOnClose(s, asr, word, 1.0);
    ClosedAgainAddsNothing(s, asr, true, 1.0, 1.0);
    var done;
    reply, done := HandleFrame(session, Text("stop"), true, true, 1.0);
    queued := session.st.sendQueue;
  }
}
