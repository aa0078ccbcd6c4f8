/**
 * The reply sentence chunker shared by every streaming reply reader
 * (`llm.py` and `vllm.py`): text is accumulated up to each punctuation
 * mark, and the accumulator is handed to the avatar as one chunk as soon as
 * it is longer than ten characters.  Characters are Unicode scalar values,
 * so `|s|` agrees with Python's `len(s)`.
 */
module SentenceChunker {

  /** The marks after which a chunk may end: `,.!;:` and `，。！？：；`.  ASCII `?` is not one. */
  const Punctuation: set<char> := {',', '.', '!', ';', ':', '\U{FF0C}', '\U{3002}', '\U{FF01}', '\U{FF1F}', '\U{FF1A}', '\U{FF1B}'}

  /** A chunk is flushed once it is longer than this many characters. */
  const FlushAbove: nat := 10

  predicate IsBreak(c: char) {
    c in Punctuation
  }

  predicate NoBreak(s: string) {
    forall j :: 0 <= j < |s| ==> !IsBreak(s[j])
  }

  /** A chunk as the chunker emits it: long enough and closed by a punctuation mark. */
  predicate IsFlushedChunk(c: string) {
    |c| > FlushAbove && IsBreak(c[|c| - 1])
  }

  /** Concatenation of a list of strings, in order. */
  function Concat(ss: seq<string>): string {
    if ss == [] then [] else ss[0] + Concat(ss[1..])
  }

  lemma {:induction false} ConcatAppend(a: seq<string>, b: seq<string>)
    ensures Concat(a + b) == Concat(a) + Concat(b)
  {
    if a == [] {
      assert a + b == b;
    } else {
      assert (a + b)[1..] == a[1..] + b;
      ConcatAppend(a[1..], b);
    }
  }

  /** The index of the first punctuation mark of `s` at or after `lo`, or `|s|` when there is none. */
  function NextBreak(s: string, lo: nat): (k: nat)
    requires lo <= |s|
    ensures lo <= k <= |s|
    ensures forall j :: lo <= j < k ==> !IsBreak(s[j])
    ensures k < |s| ==> IsBreak(s[k])
    decreases |s| - lo
  {
    if lo == |s| || IsBreak(s[lo]) then lo else NextBreak(s, lo + 1)
  }

  lemma NextBreakAt(s: string, lo: nat, m: nat)
    requires lo <= m < |s| && IsBreak(s[m])
    requires forall j :: lo <= j < m ==> !IsBreak(s[j])
    ensures NextBreak(s, lo) == m
  {
    var k := NextBreak(s, lo);
    assert k <= m;
  }

  /** What feeding text to the chunker produces: the chunks flushed, in order, and the new accumulator. */
  datatype Split = Split(emitted: seq<string>, rest: string)

  /**
   * Feeds `msg[lo..]` to a chunker whose accumulator holds `acc`: the text up
   * to each punctuation mark joins the accumulator, which is flushed whenever
   * it is longer than `FlushAbove`; text after the last mark stays in the
   * accumulator.  Every flushed chunk is long and ends in a mark, and text
   * without a mark is only appended; `FeedKeepsText` shows that nothing is
   * lost, duplicated or reordered.
   */
  function FeedFrom(acc: string, msg: string, lo: nat): Split
    requires lo <= |msg|
    decreases |msg| - lo
  {
    var k := NextBreak(msg, lo);
    if k == |msg| then
      Split([], acc + msg[lo..])
    else
      var piece := acc + msg[lo..k + 1];
      var tail := FeedFrom(if |piece| > FlushAbove then "" else piece, msg, k + 1);
      if |piece| > FlushAbove then Split([piece] + tail.emitted, tail.rest) else tail
  }

  lemma {:induction false} FeedFromFlushes(acc: string, msg: string, lo: nat)
    requires lo <= |msg|
    ensures forall k :: 0 <= k < |FeedFrom(acc, msg, lo).emitted| ==> IsFlushedChunk(FeedFrom(acc, msg, lo).emitted[k])
    decreases |msg| - lo
  {
    var k := NextBreak(msg, lo);
    if k < |msg| {
      var piece := acc + msg[lo..k + 1];
      assert piece[|piece| - 1] == msg[k];
      FeedFromFlushes(if |piece| > FlushAbove then "" else piece, msg, k + 1);
    }
  }

  /** Feeding the whole of one `content` string. */
  function Feed(acc: string, msg: string): (r: Split)
    ensures forall k :: 0 <= k < |r.emitted| ==> IsFlushedChunk(r.emitted[k])
    ensures NoBreak(msg) ==> r == Split([], acc + msg)
  {
    assert msg[0..] == msg;
    FeedFromFlushes(acc, msg, 0);
    FeedFrom(acc, msg, 0)
  }

  /** `s` with `emitted` flushed before it. */
  function After(emitted: seq<string>, s: Split): Split {
    Split(emitted + s.emitted, s.rest)
  }

  /** One step of `FeedFrom`: the first punctuation mark of `msg` from `lo` on is at `i`. */
  lemma FeedAtBreak(acc: string, msg: string, lo: nat, i: nat)
    requires lo <= i < |msg| && IsBreak(msg[i])
    requires forall j :: lo <= j < i ==> !IsBreak(msg[j])
    ensures var piece := acc + msg[lo..i + 1];
      FeedFrom(acc, msg, lo) ==
        if |piece| > FlushAbove then After([piece], FeedFrom("", msg, i + 1))
        else FeedFrom(piece, msg, i + 1)
  {
    NextBreakAt(msg, lo, i);
  }

  lemma AfterAfter(emitted: seq<string>, c: string, s: Split)
    ensures After(emitted, After([c], s)) == After(emitted + [c], s)
  {
    assert emitted + ([c] + s.emitted) == (emitted + [c]) + s.emitted;
  }

  /** The flushed chunks followed by the new accumulator are the old accumulator followed by `msg[lo..]`. */
  lemma {:induction false} FeedFromKeepsText(acc: string, msg: string, lo: nat)
    requires lo <= |msg|
    ensures Concat(FeedFrom(acc, msg, lo).emitted) + FeedFrom(acc, msg, lo).rest == acc + msg[lo..]
    decreases |msg| - lo
  {
    var k := NextBreak(msg, lo);
    if k == |msg| {
      ConcatEmpty(acc + msg[lo..]);
    } else {
      var piece := acc + msg[lo..k + 1];
      var rest := msg[k + 1..];
      assert piece + rest == acc + msg[lo..] by {
        JoinAtCut(acc, msg, lo, k + 1);
      }
      if |piece| > FlushAbove {
        var t := FeedFrom("", msg, k + 1);
        assert Concat(After([piece], t).emitted) + After([piece], t).rest == piece + rest by {
          FeedFromKeepsText("", msg, k + 1);
          FlushedKeepsText(piece, t, rest);
        }
        assert FeedFrom(acc, msg, lo) == After([piece], t) by {
          FeedAtBreak(acc, msg, lo, k);
        }
      } else {
        var t := FeedFrom(piece, msg, k + 1);
        assert Concat(t.emitted) + t.rest == piece + rest by {
          FeedFromKeepsText(piece, msg, k + 1);
        }
        assert FeedFrom(acc, msg, lo) == t by {
          FeedAtBreak(acc, msg, lo, k);
        }
      }
    }
  }

  /** Flushing `piece` ahead of a split that keeps `rest` keeps `piece + rest`. */
  lemma FlushedKeepsText(piece: string, t: Split, rest: string)
    requires Concat(t.emitted) + t.rest == "" + rest
    ensures Concat(After([piece], t).emitted) + After([piece], t).rest == piece + rest
  {
    ConcatCons(piece, t.emitted);
    Regroup(piece, Concat(t.emitted), t.rest);
    assert "" + rest == rest;
  }

  /** The flushed chunks followed by the new accumulator are the old accumulator followed by `msg`. */
  lemma FeedKeepsText(acc: string, msg: string)
    ensures Concat(Feed(acc, msg).emitted) + Feed(acc, msg).rest == acc + msg
  {
    FeedFromKeepsText(acc, msg, 0);
    assert msg[0..] == msg;
  }

  lemma JoinAtCut<T>(a: seq<T>, s: seq<T>, lo: nat, n: nat)
    requires lo <= n <= |s|
    ensures (a + s[lo..n]) + s[n..] == a + s[lo..]
  {
    assert s[lo..] == s[lo..n] + s[n..];
  }

  lemma ConcatEmpty(s: string)
    ensures Concat([]) + s == s
  {
  }

  lemma ConcatCons(c: string, ss: seq<string>)
    ensures Concat([c] + ss) == c + Concat(ss)
  {
    assert ([c] + ss)[1..] == ss;
  }

  lemma Regroup<T>(a: seq<T>, b: seq<T>, c: seq<T>)
    ensures (a + b) + c == a + (b + c)
  {
  }

  /**
   * The loop over the characters of one `content` string, as written in
   * `llm_response`, `llm_response_v1`, `llm_response_with_video` and
   * `llm_response_with_images`: `result` is the accumulator, `lastpos` the
   * start of the text not yet moved into it.
   */
  method FeedContent(acc: string, msg: string) returns (emitted: seq<string>, result: string)
    ensures Split(emitted, result) == Feed(acc, msg)
  {
    emitted := [];
    result := acc;
    var lastpos := 0;
    for i := 0 to |msg|
      invariant lastpos <= i
      invariant forall j :: lastpos <= j < i ==> !IsBreak(msg[j])
      invariant After([], FeedFrom(acc, msg, 0)) == After(emitted, FeedFrom(result, msg, lastpos))
    {
      if IsBreak(msg[i]) {
        emitted, result := TakeMark(emitted, result, msg, lastpos, i);
        lastpos := i + 1;
      }
    }
    FeedFromTail(emitted, result, msg, lastpos);
    result := result + msg[lastpos..];
    FeedAtStart(acc, msg);
  }

  lemma FeedAtStart(acc: string, msg: string)
    ensures Feed(acc, msg) == After([], FeedFrom(acc, msg, 0))
  {
    assert [] + FeedFrom(acc, msg, 0).emitted == FeedFrom(acc, msg, 0).emitted;
  }

  /**
   * The loop body of `FeedContent` at a punctuation mark `msg[i]`: the text
   * since `lastpos` joins the accumulator, which is flushed when it is
   * long enough.
   */
  method TakeMark(emitted: seq<string>, result: string, msg: string, lastpos: nat, i: nat)
    returns (emitted': seq<string>, result': string)
    requires lastpos <= i < |msg| && IsBreak(msg[i])
    requires forall j :: lastpos <= j < i ==> !IsBreak(msg[j])
    ensures After(emitted', FeedFrom(result', msg, i + 1)) == After(emitted, FeedFrom(result, msg, lastpos))
    ensures var piece := result + msg[lastpos..i + 1];
      if |piece| > FlushAbove then emitted' == emitted + [piece] && result' == ""
      else emitted' == emitted && result' == piece
  {
    var piece := result + msg[lastpos..i + 1];
    FeedAtBreak(result, msg, lastpos, i);
    if |piece| > FlushAbove {
      AfterAfter(emitted, piece, FeedFrom("", msg, i + 1));
      emitted', result' := emitted + [piece], "";
    } else {
      emitted', result' := emitted, piece;
    }
  }

  /** With no punctuation mark left, feeding only appends the rest of the message to the accumulator. */
  lemma FeedFromTail(emitted: seq<string>, acc: string, msg: string, lo: nat)
    requires lo <= |msg|
    requires forall j :: lo <= j < |msg| ==> !IsBreak(msg[j])
    ensures After(emitted, FeedFrom(acc, msg, lo)) == Split(emitted, acc + msg[lo..])
  {
    var k := NextBreak(msg, lo);
    assert k == |msg|;
    assert emitted + [] == emitted;
  }
}
