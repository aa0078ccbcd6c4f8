/**
 * What the two browser call controllers (web/app.js, web/app_images.js)
 * exchange with the outside: the speech server's control messages, the
 * `/human` chat requests, and everything they send, recorded in order as
 * an outbox.
 */
module CallProtocol {
  import opened Wrappers
  import opened InputArbiter
  import Pcm

  /** The argument of `startCall`: `'voice'` or `'video'`. */
  datatype CallType = Voice | Video

  /** The input mode a call of that type puts the page in. */
  function CallMode(t: CallType): (m: InputMode)
    ensures m.IsCall()
    ensures t == Voice <==> m == VoiceCall
  {
    if t == Voice then VoiceCall else VideoCall
  }

  /** The call socket held in `ws`: none (`null`), connecting, open, or closed. */
  datatype SocketState = NoSocket | Connecting | Open | Closed

  /** A control message from the speech server, as `JSON.parse` leaves it. */
  datatype Inbound =
    | Started                         // `{"type": "started"}`
    | Underway(text: Option<string>)  // `{"type": "underway"}`: the server sends no text
    | Complete(text: Option<string>)  // `{"type": "complete", "text": ...}`
    | ErrorReport(message: Option<string>)
    | Unrecognised                    // any other `type`, none, or a text that does not parse

  /** JavaScript truthiness of `data.text`: present and not the empty string. */
  predicate HasText(t: Option<string>) {
    t.Some? && t.value != ""
  }

  /** The media a JSON chat request carries. */
  datatype Media =
    | NoMedia                      // web/app.js: no `images` key
    | Frames(images: seq<string>)  // web/app_images.js: the `images` list

  /**
   * A JSON `/human` body: the text, `type: 'chat'`, `interrupt: true`, the
   * parsed session id and the media.  `JSON.stringify` leaves out a `text`
   * that is `undefined` (here `None`) and writes a `NaN` session id (here
   * `None`) as `null`.
   */
  datatype HumanRequest = HumanRequest(text: Option<string>, kind: string, interrupt: bool, sessionId: Option<int>, media: Media)

  function ChatRequest(text: Option<string>, sessionId: Option<int>, media: Media): HumanRequest {
    HumanRequest(text, "chat", true, sessionId, media)
  }

  /**
   * A multipart `/human` body, field by field in the order web/app.js
   * appends them.  `FormData.append` turns every value but the file into
   * text, so each field here is the string that goes out.
   */
  datatype HumanForm = HumanForm(text: string, video: seq<seq<Pcm.byte>>, mime: string,
                                 kind: string, interrupt: string, sessionId: string)

  /** JavaScript's `String` of a text argument: `undefined` becomes `"undefined"`. */
  function ValueText(v: Option<string>): string {
    if v.Some? then v.value else "undefined"
  }

  /** The decimal digits of `n`, most significant first, without leading zeros. */
  function Digits(n: nat): (r: string)
    ensures |r| >= 1 && forall i :: 0 <= i < |r| ==> '0' <= r[i] <= '9'
    decreases n
  {
    if n < 10 then [('0' as int + n) as char] else Digits(n / 10) + [('0' as int + n % 10) as char]
  }

  /** The value of a string of decimal digits. */
  function DigitsValue(s: string): int {
    if s == [] then 0 else 10 * DigitsValue(s[..|s| - 1]) + (s[|s| - 1] as int - '0' as int)
  }

  /** The value of a decimal numeral with an optional leading minus sign. */
  function NumeralValue(s: string): int {
    if |s| > 0 && s[0] == '-' then -DigitsValue(s[1..]) else DigitsValue(s)
  }

  /** JavaScript's `String` of an integer: a minus sign for a negative one, then its digits. */
  function Numeral(v: int): (r: string)
    ensures |r| >= 1 && r[0] != 'N'
  {
    if v < 0 then "-" + Digits(-v) else Digits(v)
  }

  /** JavaScript's `String` of the number `parseInt` returned: its numeral, or `"NaN"`. */
  function NumberText(n: Option<int>): (r: string)
    ensures r == "NaN" <==> n.None?
  {
    if n.Some? then Numeral(n.value) else "NaN"
  }

  lemma {:induction false} DigitsRoundTrip(n: nat)
    ensures DigitsValue(Digits(n)) == n
    decreases n
  {
    if n >= 10 {
      var r := Digits(n);
      var c := ('0' as int + n % 10) as char;
      assert r == Digits(n / 10) + [c];
      assert r[..|r| - 1] == Digits(n / 10) && r[|r| - 1] == c;
      DigitsRoundTrip(n / 10);
    }
  }

  /** A minus sign in front of digits negates their value. */
  lemma NegatedNumeral(d: string)
    requires |d| >= 1 && '0' <= d[0] <= '9'
    ensures NumeralValue("-" + d) == -DigitsValue(d)
  {
    assert ("-" + d)[0] == '-' && ("-" + d)[1..] == d;
  }

  /** A numeral reads back as the integer it was written from. */
  lemma NumeralRoundTrip(v: int)
    ensures NumeralValue(Numeral(v)) == v
  {
    if v < 0 {
      assert NumeralValue("-" + Digits(-v)) == -DigitsValue(Digits(-v)) by { NegatedNumeral(Digits(-v)); }
      assert DigitsValue(Digits(-v)) == -v by { DigitsRoundTrip(-v); }
    } else {
      assert NumeralValue(Digits(v)) == DigitsValue(Digits(v)) by { assert Digits(v)[0] != '-'; }
      assert DigitsValue(Digits(v)) == v by { DigitsRoundTrip(v); }
    }
  }

  /** The session id field reads back: a parsed id's text has exactly its value, and `NaN` reads as no number. */
  lemma NumberTextRoundTrip(n: Option<int>)
    ensures n.Some? ==> NumeralValue(NumberText(n)) == n.value
    ensures n.None? <==> NumberText(n) == "NaN"
  {
    if n.Some? {
      NumeralRoundTrip(n.value);
    }
  }

  /** The form web/app.js builds around a recording, every value as `FormData` writes it. */
  function RecordingForm(text: Option<string>, sessionId: Option<int>, video: seq<seq<Pcm.byte>>, mime: string): (f: HumanForm)
    ensures f.video == video && f.mime == mime && f.kind == "chat" && f.interrupt == "true"
    ensures text.Some? ==> f.text == text.value
    ensures text.None? ==> f.text == "undefined"
    ensures f.sessionId == "NaN" <==> sessionId.None?
  {
    HumanForm(ValueText(text), video, mime, "chat", "true", NumberText(sessionId))
  }

  /** Something a controller sends: a text or binary socket frame, a JSON or multipart `/human` post, or an `/is_speaking` poll. */
  datatype Effect =
    | SocketText(s: string)
    | SocketBinary(bytes: seq<Pcm.byte>)
    | PostHuman(request: HumanRequest)
    | PostHumanForm(form: HumanForm)
    | PollSpeaking(sessionId: Option<int>)

  /**
   * What `processor.onaudioprocess` sends for the microphone buffer
   * `input`, in both controllers: the converted samples as one binary
   * frame, exactly when the call is active, the avatar is not speaking, the
   * server has said `started` and the socket is open.
   */
  function AudioSent(callActive: bool, speaking: bool, serverReady: bool, ws: SocketState, input: seq<real>): (r: seq<Effect>)
    ensures |r| <= 1
    ensures r != [] <==> callActive && !speaking && serverReady && ws == Open
    ensures r != [] ==> r[0] == SocketBinary(Pcm.EncodePcm(Pcm.Converted(input)))
  {
    if callActive && !speaking && serverReady && ws == Open
    then [SocketBinary(Pcm.EncodePcm(Pcm.Converted(input)))] else []
  }

  /** The polls a wait of `n` answers made. */
  function Polls(sessionId: Option<int>, n: nat): (r: seq<Effect>)
    ensures |r| == n && forall i :: 0 <= i < n ==> r[i] == PollSpeaking(sessionId)
  {
    seq(n, _ => PollSpeaking(sessionId))
  }
}
