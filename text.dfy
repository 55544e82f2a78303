/** The JavaScript string operations the application relies on:
    `String.prototype.endsWith`, `String.prototype.trim` and `Array.prototype.join`. */
module Text {

  predicate StartsWith(s: string, prefix: string)
  {
    |prefix| <= |s| && s[..|prefix|] == prefix
  }

  predicate EndsWith(s: string, suffix: string)
  {
    |suffix| <= |s| && s[|s| - |suffix|..] == suffix
  }

  /** The characters `trim` removes: ECMAScript WhiteSpace and LineTerminator. */
  predicate IsJsSpace(c: char)
  {
    c == '\t' || c == '\n' || c == '\U{B}' || c == '\U{C}' || c == '\r' || c == ' '
    || c == '\U{A0}' || c == '\U{1680}' || ('\U{2000}' <= c <= '\U{200A}')
    || c == '\U{2028}' || c == '\U{2029}' || c == '\U{202F}' || c == '\U{205F}'
    || c == '\U{3000}' || c == '\U{FEFF}'
  }

  /** Drops the leading white space. */
  function TrimStart(s: string): (r: string)
    ensures |r| <= |s|
  {
    if s != [] && IsJsSpace(s[0]) then TrimStart(s[1..]) else s
  }

  /** Drops the trailing white space. */
  function TrimEnd(s: string): (r: string)
    ensures |r| <= |s|
  {
    if s != [] && IsJsSpace(s[|s| - 1]) then TrimEnd(s[..|s| - 1]) else s
  }

  /** `s.trim()`. */
  function Trim(s: string): (r: string)
    ensures |r| <= |s|
    ensures s == [] || (!IsJsSpace(s[0]) && !IsJsSpace(s[|s| - 1])) ==> r == s
  {
    TrimEnd(TrimStart(s))
  }

  /** `TrimStart` keeps a suffix that does not start with white space, and
      everything it drops is white space. */
  lemma {:induction false} TrimStartIsSuffix(s: string)
    ensures var r := TrimStart(s);
      && r == s[|s| - |r|..]
      && (r == [] || !IsJsSpace(r[0]))
      && (forall i :: 0 <= i < |s| - |r| ==> IsJsSpace(s[i]))
  {
    if s != [] && IsJsSpace(s[0]) {
      var t := s[1..];
      var r := TrimStart(t);
      TrimStartIsSuffix(t);
      assert t[|t| - |r|..] == s[|s| - |r|..];
      forall i | 0 <= i < |s| - |r|
        ensures IsJsSpace(s[i])
      {
        if i > 0 {
          assert s[i] == t[i - 1];
        }
      }
    }
  }

  /** `TrimEnd` keeps a prefix that does not end with white space, and
      everything it drops is white space. */
  lemma {:induction false} TrimEndIsPrefix(s: string)
    ensures var r := TrimEnd(s);
      && r == s[..|r|]
      && (r == [] || !IsJsSpace(r[|r| - 1]))
      && (forall i :: |r| <= i < |s| ==> IsJsSpace(s[i]))
  {
    if s != [] && IsJsSpace(s[|s| - 1]) {
      var t := s[..|s| - 1];
      var r := TrimEnd(t);
      TrimEndIsPrefix(t);
      assert t[..|r|] == s[..|r|];
      forall i | |r| <= i < |s|
        ensures IsJsSpace(s[i])
      {
        if i < |t| {
          assert s[i] == t[i];
        }
      }
    }
  }

  /** White space at the tail of a suffix `t` is white space at the tail of
      the whole string. */
  lemma SpacesInSuffix(s: string, t: string, k: nat)
    requires |t| <= |s| && t == s[|s| - |t|..] && k <= |t|
    requires forall i :: k <= i < |t| ==> IsJsSpace(t[i])
    ensures forall i :: |s| - |t| + k <= i < |s| ==> IsJsSpace(s[i])
  {
    forall i | |s| - |t| + k <= i < |s|
      ensures IsJsSpace(s[i])
    {
      assert s[i] == t[i - (|s| - |t|)];
    }
  }

  /** What `trim` promises: a contiguous slice of the input, obtained by
      removing white space only. */
  lemma TrimIsSlice(s: string)
    ensures var r, lo := Trim(s), |s| - |TrimStart(s)|;
      0 <= lo <= |s| - |r| && r == s[lo..lo + |r|]
        && (forall i :: 0 <= i < lo ==> IsJsSpace(s[i]))
        && (forall i :: lo + |r| <= i < |s| ==> IsJsSpace(s[i]))
  {
    var t := TrimStart(s);
    var r := TrimEnd(t);
    TrimStartIsSuffix(s);
    TrimEndIsPrefix(t);
    SpacesInSuffix(s, t, |r|);
  }

  /** The result of `trim` neither starts nor ends with white space. */
  lemma TrimmedEnds(s: string)
    ensures var r := Trim(s); r == [] || (!IsJsSpace(r[0]) && !IsJsSpace(r[|r| - 1]))
  {
    var t := TrimStart(s);
    var r := TrimEnd(t);
    TrimStartIsSuffix(s);
    TrimEndIsPrefix(t);
    if r != [] {
      assert r[0] == t[0];
    }
  }

  /** Trimming twice is trimming once. */
  lemma {:induction false} TrimIdempotent(s: string)
    ensures Trim(Trim(s)) == Trim(s)
  {
    var r := Trim(s);
    TrimmedEnds(s);
    assert TrimStart(r) == r;
    assert TrimEnd(r) == r;
  }

  /** `words.join(sep)`. */
  function Join(words: seq<string>, sep: string): (r: string)
    ensures words == [] ==> r == ""
    ensures |words| == 1 ==> r == words[0]
  {
    if words == [] then ""
    else if |words| == 1 then words[0]
    else Join(words[..|words| - 1], sep) + sep + words[|words| - 1]
  }

  /** Adding a word to a non-empty list appends one separator and the word. */
  lemma JoinSnoc(words: seq<string>, w: string, sep: string)
    requires words != []
    ensures Join(words + [w], sep) == Join(words, sep) + sep + w
  {
    assert (words + [w])[..|words|] == words;
  }

  /** Joining two non-empty lists is joining each, with one separator between. */
  lemma {:induction false} JoinConcat(a: seq<string>, b: seq<string>, sep: string)
    requires a != [] && b != []
    ensures Join(a + b, sep) == Join(a, sep) + sep + Join(b, sep)
    decreases |b|
  {
    var init, last := b[..|b| - 1], b[|b| - 1];
    if init == [] {
      assert a + b == a + [last];
      JoinSnoc(a, last, sep);
    } else {
      assert a + b == (a + init) + [last];
      assert b == init + [last];
      JoinSnoc(a + init, last, sep);
      JoinConcat(a, init, sep);
      JoinSnoc(init, last, sep);
    }
  }

  /** The length of a join: every word, plus one separator between neighbours. */
  function TotalLength(words: seq<string>): nat
  {
    if words == [] then 0 else TotalLength(words[..|words| - 1]) + |words[|words| - 1]|
  }

  lemma {:induction false} JoinLength(words: seq<string>, sep: string)
    requires words != []
    ensures |Join(words, sep)| == TotalLength(words) + (|words| - 1) * |sep|
  {
    if |words| == 1 {
      assert words[..0] == [];
      assert TotalLength(words) == TotalLength(words[..0]) + |words[0]|;
    } else {
      var init, last := words[..|words| - 1], words[|words| - 1];
      JoinLength(init, sep);
      assert |Join(words, sep)| == |Join(init, sep)| + |sep| + |last|;
      assert TotalLength(words) == TotalLength(init) + |last|;
      assert (|words| - 1) * |sep| == (|init| - 1) * |sep| + |sep|;
    }
  }
}
