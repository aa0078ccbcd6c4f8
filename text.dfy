/**
 * Whitespace trimming as the two runtimes of the system define it:
 * Python's `str.strip()` (the speech server and the reply streamers) and
 * JavaScript's `String.prototype.trim()` (the browser clients).
 */
module Text {

  /** Which language's notion of whitespace a trim follows. */
  datatype Flavour = Python | JavaScript

  /** Python's `str.isspace` for one code point. */
  predicate IsPythonSpace(c: char) {
    ('\t' <= c <= '\r') || ('\U{1C}' <= c <= ' ') || c == '\U{85}' || c == '\U{A0}' ||
    c == '\U{1680}' || ('\U{2000}' <= c <= '\U{200A}') || c == '\U{2028}' || c == '\U{2029}' ||
    c == '\U{202F}' || c == '\U{205F}' || c == '\U{3000}'
  }

  /** The WhiteSpace and LineTerminator code points of ECMAScript. */
  predicate IsJsSpace(c: char) {
    ('\t' <= c <= '\r') || c == ' ' || c == '\U{A0}' || c == '\U{1680}' ||
    ('\U{2000}' <= c <= '\U{200A}') || c == '\U{2028}' || c == '\U{2029}' ||
    c == '\U{202F}' || c == '\U{205F}' || c == '\U{3000}' || c == '\U{FEFF}'
  }

  predicate IsSpace(f: Flavour, c: char) {
    match f
    case Python => IsPythonSpace(c)
    case JavaScript => IsJsSpace(c)
  }

  /** Drops the leading whitespace: what is left is a suffix of `s` that does not start with a space. */
  function TrimStart(f: Flavour, s: string): (r: string)
    ensures |r| <= |s| && r == s[|s| - |r|..]
    ensures r == [] || !IsSpace(f, r[0])
    ensures forall k :: 0 <= k < |s| - |r| ==> IsSpace(f, s[k])
  {
    if |s| > 0 && IsSpace(f, s[0]) then TrimStart(f, s[1..]) else s
  }

  /** Drops the trailing whitespace: what is left is a prefix of `s` that does not end with a space. */
  function TrimEnd(f: Flavour, s: string): (r: string)
    ensures |r| <= |s| && r == s[..|r|]
    ensures r == [] || !IsSpace(f, r[|r| - 1])
    ensures forall k :: |r| <= k < |s| ==> IsSpace(f, s[k])
  {
    if |s| > 0 && IsSpace(f, s[|s| - 1]) then TrimEnd(f, s[..|s| - 1]) else s
  }

  /** `r` occurs in `s` as a contiguous run. */
  ghost predicate IsInfix<T>(r: seq<T>, s: seq<T>) {
    exists i {:trigger s[i..]} :: 0 <= i <= |s| - |r| && r == s[i..][..|r|]
  }

  /** Every character of `s` is whitespace. */
  predicate AllSpace(f: Flavour, s: string) {
    forall k :: 0 <= k < |s| ==> IsSpace(f, s[k])
  }

  /** `r` is the run `s[i..i + |r|]` for some `i`, and all of `s` around that run is whitespace. */
  ghost predicate SpaceAround(f: Flavour, r: string, s: string) {
    exists i :: 0 <= i <= |s| - |r| && r == s[i..i + |r|] && AllSpace(f, s[..i]) && AllSpace(f, s[i + |r|..])
  }

  /**
   * `s.strip()` in Python, `s.trim()` in JavaScript: a run of `s` with only
   * whitespace around it, that neither starts nor ends with whitespace, and
   * empty exactly when `s` is all whitespace.
   */
  function Strip(f: Flavour, s: string): (r: string)
    ensures |r| <= |s|
    ensures IsInfix(r, s)
    ensures SpaceAround(f, r, s)
    ensures r == [] || (!IsSpace(f, r[0]) && !IsSpace(f, r[|r| - 1]))
    ensures r == [] <==> forall k :: 0 <= k < |s| ==> IsSpace(f, s[k])
  {
    var t := TrimStart(f, s);
    var r := TrimEnd(f, t);
    StripFacts(f, s, t, r);
    r
  }

  lemma StripFacts(f: Flavour, s: string, t: string, r: string)
    requires t == TrimStart(f, s) && r == TrimEnd(f, t)
    ensures IsInfix(r, s)
    ensures SpaceAround(f, r, s)
    ensures r == [] <==> forall k :: 0 <= k < |s| ==> IsSpace(f, s[k])
  {
    StripIsInfix(f, s, t, r);
    StripDropsSpace(f, s, t, r);
    StripEmptyIffAllSpace(f, s, t, r);
  }

  /** What trimming drops from either end is whitespace. */
  lemma StripDropsSpace(f: Flavour, s: string, t: string, r: string)
    requires t == TrimStart(f, s) && r == TrimEnd(f, t)
    ensures SpaceAround(f, r, s)
  {
    var i := |s| - |t|;
    assert r == s[i..i + |r|] by {
      assert t == s[i..];
      assert r == t[..|r|];
    }
    assert AllSpace(f, s[..i]);
    var u := s[i + |r|..];
    assert AllSpace(f, u) by {
      forall k | 0 <= k < |u| ensures IsSpace(f, u[k]) {
        assert u[k] == t[|r| + k];
      }
    }
  }

  lemma StripIsInfix(f: Flavour, s: string, t: string, r: string)
    requires t == TrimStart(f, s) && r == TrimEnd(f, t)
    ensures IsInfix(r, s)
  {
    InfixOfSuffix(s, t, r);
  }

  lemma StripEmptyIffAllSpace(f: Flavour, s: string, t: string, r: string)
    requires t == TrimStart(f, s) && r == TrimEnd(f, t)
    ensures r == [] <==> forall k :: 0 <= k < |s| ==> IsSpace(f, s[k])
  {
    var i := |s| - |t|;
    if r == [] {
      forall k | 0 <= k < |s| ensures IsSpace(f, s[k]) {
        if k >= i {
          assert s[k] == t[k - i];
        }
      }
    } else {
      assert s[i] == r[0];
    }
  }

  lemma InfixOfSuffix<T>(s: seq<T>, t: seq<T>, r: seq<T>)
    requires |t| <= |s| && t == s[|s| - |t|..]
    requires |r| <= |t| && r == t[..|r|]
    ensures IsInfix(r, s)
  {
    assert r == s[|s| - |t|..][..|r|];
  }

  /** Python `s.startswith(p)`. */
  predicate StartsWith(s: string, p: string) {
    |p| <= |s| && s[..|p|] == p
  }
}
