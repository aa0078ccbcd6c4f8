/**
 * The four streaming reply readers of `llm.py` and `vllm.py`.  Each posts
 * the recognised text (and, for the vision readers, the media) to a
 * language-model service, reads the streamed reply, and hands it to the
 * avatar (`put_msg_txt`) in punctuation-closed chunks.  What a reader hands
 * over is returned as `sent`; the HTTP client and the avatar sink are not
 * modelled beyond that.
 */
module ReplyStream {
  import opened Wrappers
  import opened Text
  import opened SentenceChunker

  // ---------------------------------------------------------------- requests

  const VoiceAssistantUrl: string := "http://127.0.0.1:9001/api/group/voiceAssistant"
  const VideoAssistantUrl: string := "http://127.0.0.1:9001/api/group/videoAssistant"
  const ImageAssistantUrl: string := "http://127.0.0.1:9001/api/group/videoAssistantBase64"

  /** One file part of a multipart form: field name, file name, bytes, content type. */
  datatype FilePart = FilePart(field: string, fileName: string, data: seq<bv8>, contentType: string)

  /** The request each reader makes. */
  datatype Request =
    | TextJson(url: string, text: string)
    | VideoForm(url: string, text: string, file: FilePart)
    | ImagesJson(url: string, text: string, images: seq<string>)
    | ChatCompletion(model: string, system: string, user: string, stream: bool)

  /** The model and system prompt of the hosted chat-completion reader. */
  const CompletionModel: string := "qwen-plus"
  const SystemPrompt: string := "\U{4F60}\U{662F}\U{9EC4}\U{5C0F}\U{8F89}\U{7684}"

  // ----------------------------------------------------------- stream items

  /** A `data:` payload after `json.loads`, reduced to what the readers use. */
  datatype Decoded =
    | Malformed                        // `json.JSONDecodeError`
    | NotAnObject                      // valid JSON without `.get`: the reader raises
    | Object(content: Option<string>)  // the `content` member, if present and not null

  /** What one stream item does to a reader: nothing, hand it text, or raise out of it. */
  datatype Step = Skip | Content(msg: string) | Raise

  /**
   * The payload of an event-stream line: the line is stripped, must start
   * with `data:`, and what follows is stripped again; an empty payload is
   * dropped.  (An empty line strips to nothing and is dropped as well.)
   * `DataPayloadPresent`, `DataPayloadShape`: there is a payload exactly when the stripped line
   * starts with `data:` and something other than whitespace follows, and
   * the payload is then a non-empty run of the line with no space at
   * either end.
   */
  function DataPayload(line: string): Option<string> {
    var d := Strip(Python, line);
    if !StartsWith(d, "data:") then None
    else
      var q := Strip(Python, d[5..]);
      if q == [] then None else Some(q)
  }

  /** There is a payload exactly when the stripped line starts with `data:` and something other than whitespace follows. */
  lemma DataPayloadPresent(line: string)
    ensures var d := Strip(Python, line);
      DataPayload(line).None? <==> (!StartsWith(d, "data:") || forall k :: 5 <= k < |d| ==> IsSpace(Python, d[k]))
  {
    var d := Strip(Python, line);
    if StartsWith(d, "data:") {
      AllSpaceOfSuffix(d, 5);
    }
  }

  /** A payload is a non-empty run of the line with no whitespace at either end. */
  lemma DataPayloadShape(line: string)
    ensures var p := DataPayload(line);
      p.Some? ==> p.value != [] && IsInfix(p.value, line) && !IsSpace(Python, p.value[0]) && !IsSpace(Python, p.value[|p.value| - 1])
  {
    var d := Strip(Python, line);
    if StartsWith(d, "data:") {
      var q := Strip(Python, d[5..]);
      if q != [] {
        InfixOfDrop(d, 5);
        InfixTrans(q, d[5..], d);
        InfixTrans(q, d, line);
      }
    }
  }

  lemma AllSpaceOfSuffix(d: string, n: nat)
    requires n <= |d|
    ensures (forall k :: 0 <= k < |d[n..]| ==> IsSpace(Python, d[n..][k])) <==>
            (forall k :: n <= k < |d| ==> IsSpace(Python, d[k]))
  {
    if forall k :: n <= k < |d| ==> IsSpace(Python, d[k]) {
      forall k | 0 <= k < |d[n..]| ensures IsSpace(Python, d[n..][k]) {
        assert d[n..][k] == d[n + k];
      }
    }
    if forall k :: 0 <= k < |d[n..]| ==> IsSpace(Python, d[n..][k]) {
      forall k | n <= k < |d| ensures IsSpace(Python, d[k]) {
        assert d[k] == d[n..][k - n];
      }
    }
  }

  lemma InfixOfDrop<T>(s: seq<T>, n: nat)
    requires n <= |s|
    ensures IsInfix(s[n..], s)
  {
    assert s[n..] == s[n..][..|s[n..]|];
  }

  lemma InfixTrans<T>(a: seq<T>, b: seq<T>, c: seq<T>)
    requires IsInfix(a, b) && IsInfix(b, c)
    ensures IsInfix(a, c)
  {
    var i :| 0 <= i <= |b| - |a| && a == b[i..][..|a|];
    var j :| 0 <= j <= |c| - |b| && b == c[j..][..|b|];
    assert a == c[j + i..][..|a|] by {
      forall k | 0 <= k < |a| ensures a[k] == c[j + i..][..|a|][k] {
        assert a[k] == b[i + k] == c[j + i + k];
      }
    }
  }

  /**
   * One line of an event stream as the three HTTP readers treat it: only a
   * `data:` line with a payload is decoded; a decode error skips the line;
   * a `content` that is missing, null or empty is skipped; a payload that
   * is valid JSON but not an object makes the reader raise.
   */
  function LineStep(line: string, decode: string -> Decoded): (s: Step)
    ensures DataPayload(line).None? ==> s == Skip
    ensures DataPayload(line).Some? && decode(DataPayload(line).value).Malformed? ==> s == Skip
    ensures s.Raise? <==> DataPayload(line).Some? && decode(DataPayload(line).value).NotAnObject?
    ensures s.Content? ==> s.msg != [] && DataPayload(line).Some? && decode(DataPayload(line).value) == Object(Some(s.msg))
    ensures DataPayload(line).Some? && decode(DataPayload(line).value).Object?
      ==> (s.Content? <==> decode(DataPayload(line).value).content.GetOr("") != "")
  {
    match DataPayload(line)
    case None => Skip
    case Some(p) =>
      match decode(p)
      case Malformed => Skip
      case NotAnObject => Raise
      case Object(c) => if c.GetOr("") == "" then Skip else Content(c.value)
  }

  function LineSteps(lines: seq<string>, decode: string -> Decoded): seq<Step> {
    seq(|lines|, i requires 0 <= i < |lines| => LineStep(lines[i], decode))
  }

  /** An item of a chat-completion stream: without choices, or the first choice's delta content. */
  datatype CompletionChunk = NoChoices | Delta(content: Option<string>)

  /** Chunks without choices are skipped; a null delta content makes `enumerate` raise. */
  function ChunkStep(c: CompletionChunk): (s: Step)
    ensures s.Skip? <==> c.NoChoices?
    ensures s.Raise? <==> c == Delta(None)
    ensures s.Content? ==> c == Delta(Some(s.msg))
  {
    match c
    case NoChoices => Skip
    case Delta(None) => Raise
    case Delta(Some(m)) => Content(m)
  }

  function ChunkSteps(chunks: seq<CompletionChunk>): seq<Step> {
    seq(|chunks|, i requires 0 <= i < |chunks| => ChunkStep(chunks[i]))
  }

  // ------------------------------------------------------- the shared loop

  /**
   * The chunker state after reading `steps` from accumulator `acc`, up to
   * the first item that raises.  Every chunk flushed is long and closed by a
   * punctuation mark; `ReadKeepsText` shows it loses no text.
   */
  function Read(acc: string, steps: seq<Step>): Split
    decreases |steps|
  {
    if steps == [] then Split([], acc)
    else match steps[0]
      case Skip => Read(acc, steps[1..])
      case Raise => Split([], acc)
      case Content(m) =>
        var s := Feed(acc, m);
        After(s.emitted, Read(s.rest, steps[1..]))
  }

  lemma {:induction false} ReadFlushes(acc: string, steps: seq<Step>)
    ensures forall k :: 0 <= k < |Read(acc, steps).emitted| ==> IsFlushedChunk(Read(acc, steps).emitted[k])
    decreases |steps|
  {
    if steps != [] && steps[0].Content? {
      ReadFlushes(Feed(acc, steps[0].msg).rest, steps[1..]);
    } else if steps != [] && steps[0].Skip? {
      ReadFlushes(acc, steps[1..]);
    }
  }

  /** The text the service delivered before the first item that raises. */
  function Delivered(steps: seq<Step>): string {
    if steps == [] then ""
    else match steps[0]
      case Skip => Delivered(steps[1..])
      case Raise => ""
      case Content(m) => m + Delivered(steps[1..])
  }

  predicate Raises(steps: seq<Step>) {
    exists k :: 0 <= k < |steps| && steps[k].Raise?
  }

  /** Skipped items change nothing: neither the chunks flushed nor the accumulator. */
  lemma SkipChangesNothing(acc: string, steps: seq<Step>)
    ensures Read(acc, [Skip] + steps) == Read(acc, steps)
    ensures Delivered([Skip] + steps) == Delivered(steps)
  {
    assert ([Skip] + steps)[1..] == steps;
  }

  /** The flushed chunks followed by the accumulator are the old accumulator followed by the delivered text. */
  lemma {:induction false} ReadKeepsText(acc: string, steps: seq<Step>)
    ensures Concat(Read(acc, steps).emitted) + Read(acc, steps).rest == acc + Delivered(steps)
    decreases |steps|
  {
    if steps == [] {
    } else {
      match steps[0]
      case Skip =>
        ReadKeepsText(acc, steps[1..]);
      case Raise =>
      case Content(m) =>
        var s := Feed(acc, m);
        var t := Read(s.rest, steps[1..]);
        FeedKeepsText(acc, m);
        ReadKeepsText(s.rest, steps[1..]);
        ConcatAppend(s.emitted, t.emitted);
        calc {
          Concat(s.emitted + t.emitted) + t.rest;
          (Concat(s.emitted) + Concat(t.emitted)) + t.rest;
          { Regroup(Concat(s.emitted), Concat(t.emitted), t.rest); }
          Concat(s.emitted) + (s.rest + Delivered(steps[1..]));
          { Regroup(Concat(s.emitted), s.rest, Delivered(steps[1..])); }
          (acc + m) + Delivered(steps[1..]);
          { Regroup(acc, m, Delivered(steps[1..])); }
          acc + (m + Delivered(steps[1..]));
        }
    }
  }

  lemma AfterAll(a: seq<string>, b: seq<string>, s: Split)
    ensures After(a, After(b, s)) == After(a + b, s)
  {
    assert a + (b + s.emitted) == (a + b) + s.emitted;
  }

  /**
   * The stream loop shared by the readers: each item is skipped, fed to the
   * chunker (the character loop of `FeedContent`), or raises, which ends the
   * loop with `raised` set.
   */
  method ReadSteps(steps: seq<Step>) returns (emitted: seq<string>, result: string, raised: bool)
    ensures Split(emitted, result) == Read("", steps)
    ensures raised <==> Raises(steps)
  {
    emitted, result := [], "";
    for i := 0 to |steps|
      invariant Read("", steps) == After(emitted, Read(result, steps[i..]))
      invariant forall k :: 0 <= k < i ==> !steps[k].Raise?
    {
      assert steps[i..][1..] == steps[i + 1..];
      match steps[i]
      case Skip =>
      case Raise =>
        assert emitted + [] == emitted;
        raised := true;
        return;
      case Content(m) =>
        var e, r := FeedContent(result, m);
        AfterAll(emitted, e, Read(r, steps[i + 1..]));
        emitted, result := emitted + e, r;
    }
    assert emitted + [] == emitted;
    raised := false;
  }

  // ---------------------------------------------------------- the readers

  /** How an HTTP request went: refused (connection error or error status), or a body of lines, possibly cut off by a request error. */
  datatype Reply = Refused | Streamed(body: seq<string>, cut: bool)

  /** The chunks flushed, then the accumulator if `flush` holds and it is not empty. */
  function Flushed(r: Split, flush: bool): seq<string> {
    r.emitted + (if flush && r.rest != "" then [r.rest] else [])
  }

  /** Whether an HTTP reader reaches its final flush: the body was read to its end without raising. */
  predicate Completes(reply: Reply, decode: string -> Decoded) {
    reply.Streamed? && !reply.cut && !Raises(LineSteps(reply.body, decode))
  }

  /** What an HTTP event-stream reader hands to the avatar. */
  function Answer(reply: Reply, decode: string -> Decoded): seq<string> {
    match reply
    case Refused => []
    case Streamed(body, _) => Flushed(Read("", LineSteps(body, decode)), Completes(reply, decode))
  }

  /** Whether an HTTP reader ends by raising to its caller: only a request error is caught, so a raising step escapes. */
  predicate Escapes(reply: Reply, decode: string -> Decoded) {
    reply.Streamed? && Raises(LineSteps(reply.body, decode))
  }

  /**
   * The reading shared by `llm_response`, `llm_response_with_video` and
   * `llm_response_with_images` once the request is made.  `raised` says
   * that the reader does not return but raises, after handing over `sent`.
   */
  method ReadEventStream(reply: Reply, decode: string -> Decoded) returns (sent: seq<string>, raised: bool)
    ensures sent == Answer(reply, decode)
    ensures raised <==> Escapes(reply, decode)
  {
    if reply.Refused? {
      return [], false;
    }
    var emitted, result;
    emitted, result, raised := ReadSteps(LineSteps(reply.body, decode));
    sent := emitted;
    if !raised && !reply.cut && result != "" {
      sent := sent + [result];
    }
  }

  /**
   * Everything an HTTP reader hands over is non-empty, and all but the last
   * piece are flushed chunks, longer than ten characters and closed by a mark.
   */
  lemma AnswerShape(reply: Reply, decode: string -> Decoded)
    ensures forall k :: 0 <= k < |Answer(reply, decode)| ==> Answer(reply, decode)[k] != ""
    ensures forall k :: 0 <= k < |Answer(reply, decode)| - 1 ==> IsFlushedChunk(Answer(reply, decode)[k])
  {
    if reply.Streamed? {
      ReadFlushes("", LineSteps(reply.body, decode));
    }
  }

  /** A reader that reaches its final flush hands over exactly the text the service delivered, in order. */
  lemma AnswerKeepsText(reply: Reply, decode: string -> Decoded)
    requires Completes(reply, decode)
    ensures Concat(Answer(reply, decode)) == Delivered(LineSteps(reply.body, decode))
  {
    var steps := LineSteps(reply.body, decode);
    assert Answer(reply, decode) == Flushed(Read("", steps), true);
    FlushedKeepsText(steps);
  }

  lemma FlushedKeepsText(steps: seq<Step>)
    ensures Concat(Flushed(Read("", steps), true)) == Delivered(steps)
  {
    var r := Read("", steps);
    ReadKeepsText("", steps);
    ConcatFlushed(r.emitted, r.rest, true);
  }

  lemma ConcatFlushed(emitted: seq<string>, rest: string, flush: bool)
    requires flush || rest == ""
    ensures Concat(emitted + (if flush && rest != "" then [rest] else [])) == Concat(emitted) + rest
    ensures Concat(emitted + [rest]) == Concat(emitted) + rest
  {
    ConcatAppend(emitted, [rest]);
    assert Concat([rest]) == rest + Concat([]);
    ConcatAppend(emitted, []);
    assert emitted + [] == emitted;
    assert Concat(emitted) + "" == Concat(emitted);
  }

  /** The leftover is flushed once at the end when it is not empty, and never when the stream failed. */
  lemma AnswerFlushesOnce(reply: Reply, decode: string -> Decoded)
    requires reply.Streamed?
    ensures var r := Read("", LineSteps(reply.body, decode));
      Answer(reply, decode) == r.emitted + (if Completes(reply, decode) && r.rest != "" then [r.rest] else [])
    ensures !Completes(reply, decode) ==> forall k :: 0 <= k < |Answer(reply, decode)| ==> IsFlushedChunk(Answer(reply, decode)[k])
  {
    ReadFlushes("", LineSteps(reply.body, decode));
  }

  /** `llm_response`: posts the text as JSON and reads the event stream. */
  method LlmResponse(message: string, reply: Reply, decode: string -> Decoded)
    returns (request: Request, sent: seq<string>, raised: bool)
    ensures request == TextJson(VoiceAssistantUrl, message)
    ensures sent == Answer(reply, decode)
    ensures raised <==> Escapes(reply, decode)
  {
    request := TextJson(VoiceAssistantUrl, message);
    sent, raised := ReadEventStream(reply, decode);
  }

  /** `llm_response_with_video`: posts the text as a form field and the recording as one `videoFile` part. */
  method LlmResponseWithVideo(message: string, video: seq<bv8>, reply: Reply, decode: string -> Decoded)
    returns (request: Request, sent: seq<string>, raised: bool)
    ensures request == VideoForm(VideoAssistantUrl, message, FilePart("videoFile", "user_video.webm", video, "video/webm"))
    ensures sent == Answer(reply, decode)
    ensures raised <==> Escapes(reply, decode)
  {
    request := VideoForm(VideoAssistantUrl, message, FilePart("videoFile", "user_video.webm", video, "video/webm"));
    sent, raised := ReadEventStream(reply, decode);
  }

  /** `llm_response_with_images`: posts the text and the base64 frames, in order, as JSON. */
  method LlmResponseWithImages(message: string, images: seq<string>, reply: Reply, decode: string -> Decoded)
    returns (request: Request, sent: seq<string>, raised: bool)
    ensures request == ImagesJson(ImageAssistantUrl, message, images)
    ensures sent == Answer(reply, decode)
    ensures raised <==> Escapes(reply, decode)
  {
    request := ImagesJson(ImageAssistantUrl, message, images);
    sent, raised := ReadEventStream(reply, decode);
  }

  /** A chat-completion stream: its chunks, and whether it broke off with an error after them. */
  datatype Completion = Completion(chunks: seq<CompletionChunk>, cut: bool)

  /** What `llm_response_v1` hands over: the leftover is always flushed, even when empty, unless the stream raised. */
  function AnswerV1(c: Completion): seq<string> {
    var steps := ChunkSteps(c.chunks);
    var r := Read("", steps);
    r.emitted + (if c.cut || Raises(steps) then [] else [r.rest])
  }

  /**
   * `llm_response_v1`: streams a hosted chat completion; chunks without
   * choices are skipped.  Nothing is caught here, so a stream that breaks
   * off or a `None` delta makes it raise (`raised`) after handing over
   * `sent`.
   */
  method LlmResponseV1(message: string, completion: Completion) returns (request: Request, sent: seq<string>, raised: bool)
    ensures request == ChatCompletion(CompletionModel, SystemPrompt, message, true)
    ensures sent == AnswerV1(completion)
    ensures raised <==> completion.cut || Raises(ChunkSteps(completion.chunks))
  {
    request := ChatCompletion(CompletionModel, SystemPrompt, message, true);
    var emitted, result;
    emitted, result, raised := ReadSteps(ChunkSteps(completion.chunks));
    sent := emitted;
    raised := raised || completion.cut;
    if !raised {
      sent := sent + [result];
    }
  }

  /** A completed v1 stream hands over the whole delivered text, ending with exactly one final flush. */
  lemma AnswerV1KeepsText(c: Completion)
    requires !c.cut && !Raises(ChunkSteps(c.chunks))
    ensures |AnswerV1(c)| >= 1
    ensures Concat(AnswerV1(c)) == Delivered(ChunkSteps(c.chunks))
    ensures forall k :: 0 <= k < |AnswerV1(c)| - 1 ==> IsFlushedChunk(AnswerV1(c)[k])
  {
    var r := Read("", ChunkSteps(c.chunks));
    ReadKeepsText("", ChunkSteps(c.chunks));
    ReadFlushes("", ChunkSteps(c.chunks));
    ConcatFlushed(r.emitted, r.rest, true);
  }
}
