/**
 * The browser's two waits on the avatar (web/app.js, web/app_images.js):
 * after a recognised sentence is sent, the client polls `/is_speaking`
 * until the avatar starts talking (at most 20 polls, a second apart) and,
 * if it did, until it stops.  The poll answers are given in advance as a
 * sequence; when they run out before a wait ends, the wait is still in
 * progress.
 */
module SpeakingWait {

  /** One answer of `is_speaking`: the service's `data` flag, or a failed request. */
  datatype Poll = Answered(speaking: bool) | Failed

  /** A failed poll counts as "not speaking". */
  predicate Speaking(p: Poll) {
    p.Answered? && p.speaking
  }

  /** The number of polls the start-wait makes before giving up. */
  const StartPolls: nat := 20

  /** How a wait over the given answers ends: still polling, or returned `result` after `used` polls. */
  datatype WaitEnd = Polling | Returned(result: bool, used: nat)

  function StartWaitFrom(polls: seq<Poll>, i: nat): WaitEnd
    requires i <= StartPolls && i <= |polls|
    decreases StartPolls - i
  {
    if i == StartPolls then Returned(false, i)
    else if i == |polls| then Polling
    else if Speaking(polls[i]) then Returned(true, i + 1)
    else StartWaitFrom(polls, i + 1)
  }

  lemma {:induction false} StartWaitFromFacts(polls: seq<Poll>, i: nat)
    requires i <= StartPolls && i <= |polls|
    requires forall j :: 0 <= j < i ==> !Speaking(polls[j])
    ensures var w := StartWaitFrom(polls, i);
      && (w.Returned? ==> 1 <= w.used <= StartPolls && w.used <= |polls|)
      && (w.Returned? ==> forall j :: 0 <= j < w.used - 1 ==> !Speaking(polls[j]))
      && (w.Returned? ==> (w.result <==> Speaking(polls[w.used - 1])))
      && (w.Returned? && !w.result ==> w.used == StartPolls)
      && (w.Polling? ==> |polls| < StartPolls && forall j :: 0 <= j < |polls| ==> !Speaking(polls[j]))
    decreases StartPolls - i
  {
    if i < StartPolls && i < |polls| && !Speaking(polls[i]) {
      StartWaitFromFacts(polls, i + 1);
    }
  }

  /**
   * `waitForDigitalHumanToStartSpeaking` over the given answers: it returns
   * true at the first answer that says speaking and false after
   * `StartPolls` answers that do not; it is still polling when fewer
   * answers are given and none says speaking.
   */
  function StartWait(polls: seq<Poll>): (w: WaitEnd)
    ensures w.Returned? ==> 1 <= w.used <= StartPolls && w.used <= |polls|
    ensures w.Returned? ==> forall j :: 0 <= j < w.used - 1 ==> !Speaking(polls[j])
    ensures w.Returned? ==> (w.result <==> Speaking(polls[w.used - 1]))
    ensures w.Returned? && !w.result ==> w.used == StartPolls
    ensures (w.Returned? && w.result) <==> exists j :: 0 <= j < |polls| && j < StartPolls && Speaking(polls[j])
    ensures w.Polling? <==> |polls| < StartPolls && forall j :: 0 <= j < |polls| ==> !Speaking(polls[j])
  {
    StartWaitFromFacts(polls, 0);
    StartWaitFrom(polls, 0)
  }

  function StopWaitFrom(polls: seq<Poll>, i: nat): WaitEnd
    requires i <= |polls|
    decreases |polls| - i
  {
    if i == |polls| then Polling
    else if !Speaking(polls[i]) then Returned(false, i + 1)
    else StopWaitFrom(polls, i + 1)
  }

  lemma {:induction false} StopWaitFromFacts(polls: seq<Poll>, i: nat)
    requires i <= |polls|
    requires forall j :: 0 <= j < i ==> Speaking(polls[j])
    ensures var w := StopWaitFrom(polls, i);
      && (w.Returned? ==> 1 <= w.used <= |polls| && !w.result && !Speaking(polls[w.used - 1]))
      && (w.Returned? ==> forall j :: 0 <= j < w.used - 1 ==> Speaking(polls[j]))
      && (w.Polling? ==> forall j :: 0 <= j < |polls| ==> Speaking(polls[j]))
    decreases |polls| - i
  {
    if i < |polls| && Speaking(polls[i]) {
      StopWaitFromFacts(polls, i + 1);
    }
  }

  /**
   * `waitForDigitalHumanToStopSpeaking` over the given answers: it returns
   * only after an answer that says not speaking (a failed poll included),
   * and polls without bound until then.
   */
  function StopWait(polls: seq<Poll>): (w: WaitEnd)
    ensures w.Returned? ==> 1 <= w.used <= |polls| && !w.result && !Speaking(polls[w.used - 1])
    ensures w.Returned? ==> forall j :: 0 <= j < w.used - 1 ==> Speaking(polls[j])
    ensures w.Polling? <==> forall j :: 0 <= j < |polls| ==> Speaking(polls[j])
  {
    StopWaitFromFacts(polls, 0);
    StopWaitFrom(polls, 0)
  }

  /**
   * What the `complete` handler awaits: the start-wait and, when the avatar
   * did start, the stop-wait on the answers after it; `used` counts the
   * polls of both.
   */
  function ReplyWait(polls: seq<Poll>): (w: WaitEnd)
    ensures w.Returned? ==> w.used <= |polls|
  {
    match StartWait(polls)
    case Polling => Polling
    case Returned(false, n) => Returned(false, n)
    case Returned(true, n) =>
      match StopWait(polls[n..])
      case Polling => Polling
      case Returned(_, m) => Returned(true, n + m)
  }

  /** The avatar-speaking wait returns exactly when its answers contain a "speaking" among the first 20 and a later "not speaking", or 20 answers without "speaking". */
  lemma ReplyWaitReturns(polls: seq<Poll>)
    ensures ReplyWait(polls).Returned? <==>
      (|polls| >= StartPolls && forall j :: 0 <= j < StartPolls ==> !Speaking(polls[j])) ||
      (StartWait(polls).Returned? && StartWait(polls).result &&
       exists j :: StartWait(polls).used <= j < |polls| && !Speaking(polls[j]))
  {
    var s := StartWait(polls);
    if s.Returned? && s.result {
      var rest := polls[s.used..];
      if exists j :: s.used <= j < |polls| && !Speaking(polls[j]) {
        var j :| s.used <= j < |polls| && !Speaking(polls[j]);
        assert !Speaking(rest[j - s.used]);
      } else {
        forall k | 0 <= k < |rest| ensures Speaking(rest[k]) {
          assert rest[k] == polls[s.used + k];
        }
      }
    } else if s.Returned? {
      assert s.used == StartPolls;
    }
  }

  /**
   * The start-wait's loop: at most `StartPolls` polls, returning as soon as
   * one says speaking.
   */
  method WaitForStart(polls: seq<Poll>) returns (w: WaitEnd)
    ensures w == StartWait(polls)
  {
    var i := 0;
    while i < StartPolls
      invariant i <= StartPolls && i <= |polls|
      invariant StartWait(polls) == StartWaitFrom(polls, i)
    {
      if i == |polls| {
        return Polling;
      }
      var speaking := Speaking(polls[i]);
      i := i + 1;
      if speaking {
        return Returned(true, i);
      }
    }
    return Returned(false, i);
  }

  /** The stop-wait's loop: polls until an answer says not speaking. */
  method WaitForStop(polls: seq<Poll>) returns (w: WaitEnd)
    ensures w == StopWait(polls)
  {
    var i := 0;
    while true
      invariant i <= |polls|
      invariant StopWait(polls) == StopWaitFrom(polls, i)
      decreases |polls| - i
    {
      if i == |polls| {
        return Polling;
      }
      var speaking := Speaking(polls[i]);
      i := i + 1;
      if !speaking {
        return Returned(false, i);
      }
    }
  }

  /** The `complete` handler's `if (await start()) await stop();`. */
  method AwaitReply(polls: seq<Poll>) returns (w: WaitEnd)
    ensures w == ReplyWait(polls)
  {
    var s := WaitForStart(polls);
    if s.Polling? || !s.result {
      return s;
    }
    var t := WaitForStop(polls[s.used..]);
    if t.Polling? {
      return Polling;
    }
    return Returned(true, s.used + t.used);
  }
}
