/** The regular-expression pieces the keyword classifier is built from, stated
    over character positions: `\b`, `\w`, `\s+`, `.`, literal runs, digit captures.
    Without the `u` flag `\w` is exactly [A-Za-z0-9_]. */
module Text {
  import opened Wrappers
  import opened Js

  /** `\w` */
  predicate IsWordChar(c: char)
  {
    'a' <= c <= 'z' || 'A' <= c <= 'Z' || '0' <= c <= '9' || c == '_'
  }

  /** The characters `.` does not match. */
  predicate IsLineTerminator(c: char)
  {
    c == '\n' || c == '\r' || c as int == 0x2028 || c as int == 0x2029
  }

  /** `\b` holds at position `p` of `s`: exactly one side of `p` is a word character. */
  predicate Boundary(s: string, p: nat)
  {
    p <= |s| && ((p > 0 && IsWordChar(s[p - 1])) != (p < |s| && IsWordChar(s[p])))
  }

  /** The literal `w` occurs at position `i`. */
  predicate LitAt(s: string, i: nat, w: string)
  {
    i + |w| <= |s| && s[i..i + |w|] == w
  }

  /** `/w/.test(s)` for a literal `w` */
  predicate Contains(s: string, w: string)
  {
    exists i :: 0 <= i <= |s| && LitAt(s, i, w)
  }

  /** `\bw\b` matches at `i` */
  predicate WordAt(s: string, i: nat, w: string)
  {
    LitAt(s, i, w) && Boundary(s, i) && Boundary(s, i + |w|)
  }

  /** `/\b(w0|w1|...)\b/.test(s)` */
  predicate AnyWord(s: string, ws: seq<string>)
  {
    exists k, i :: 0 <= k < |ws| && 0 <= i <= |s| && WordAt(s, i, ws[k])
  }

  /** Greedy `\s*` from `i`: the end of the white-space run that starts there. */
  function SkipSpaces(s: string, i: nat): (j: nat)
    requires i <= |s|
    ensures i <= j <= |s|
    ensures forall k :: i <= k < j ==> IsSpace(s[k])
    ensures j == |s| || !IsSpace(s[j])
    decreases |s| - i
  {
    if i < |s| && IsSpace(s[i]) then SkipSpaces(s, i + 1) else i
  }

  /** Greedy `\d+` from `i` ends here (equal to `i` when no digit is there). */
  function DigitEnd(s: string, i: nat): (j: nat)
    requires i <= |s|
    ensures i <= j <= |s|
    ensures forall k :: i <= k < j ==> IsDigit(s[k])
    ensures j == |s| || !IsDigit(s[j])
    decreases |s| - i
  {
    if i < |s| && IsDigit(s[i]) then DigitEnd(s, i + 1) else i
  }

  /** `w0\s+w1\s+...` starting at `i`: the index where the match ends.
      Every word starts with a non-space character, so `\s+` can only take
      the whole white-space run: the match is unique when it exists. */
  function PhraseEnd(s: string, i: nat, words: seq<string>): (r: Option<nat>)
    requires |words| >= 1
    ensures r.Some? ==> i + |words[0]| <= r.value <= |s| && LitAt(s, i, words[0])
    ensures r.Some? && |words| == 1 ==> r.value == i + |words[0]|
    decreases |words|
  {
    if !LitAt(s, i, words[0]) then None
    else if |words| == 1 then Some(i + |words[0]|)
    else
      var j := SkipSpaces(s, i + |words[0]|);
      if j == i + |words[0]| then None else PhraseEnd(s, j, words[1..])
  }

  /** `w0\s+w1...\b` matches at `i` (no boundary demanded in front). */
  predicate PhraseThenBoundary(s: string, i: nat, words: seq<string>)
    requires |words| >= 1
  {
    var r := PhraseEnd(s, i, words);
    r.Some? && Boundary(s, r.value)
  }

  /** `\bw0\s+w1...\b` matches at `i`. */
  predicate PhraseAt(s: string, i: nat, words: seq<string>)
    requires |words| >= 1
  {
    Boundary(s, i) && PhraseThenBoundary(s, i, words)
  }

  /** A two-word phrase matches exactly when the first word is followed by a
      non-empty run of white space and then by the second word. */
  lemma PhraseEndTwoWords(s: string, i: nat, a: string, b: string, e: nat)
    requires |b| >= 1 && !IsSpace(b[0])
    ensures PhraseEnd(s, i, [a, b]) == Some(e) <==>
      (exists j :: i + |a| < j && e == j + |b| && LitAt(s, i, a) && LitAt(s, j, b)
         && forall k :: i + |a| <= k < j ==> IsSpace(s[k]))
  {
    if PhraseEnd(s, i, [a, b]) == Some(e) {
      var j := SkipSpaces(s, i + |a|);
      assert [a, b][1..] == [b];
      assert LitAt(s, j, b) && e == j + |b|;
    }
    if exists j :: i + |a| < j && e == j + |b| && LitAt(s, i, a) && LitAt(s, j, b)
         && forall k :: i + |a| <= k < j ==> IsSpace(s[k]) {
      var j :| i + |a| < j && e == j + |b| && LitAt(s, i, a) && LitAt(s, j, b)
         && forall k :: i + |a| <= k < j ==> IsSpace(s[k]);
      var m := SkipSpaces(s, i + |a|);
      assert s[j] == b[0];
      assert m == j;
      assert [a, b][1..] == [b];
    }
  }

  /** `.*` between positions `i` and `j` */
  predicate NoLineBreak(s: string, i: nat, j: nat)
    requires i <= j <= |s|
  {
    forall k :: i <= k < j ==> !IsLineTerminator(s[k])
  }

  /** `\b(a0|a1|...)\b.*\b(b0|b1|...)\b` */
  predicate WordThenWord(s: string, a: seq<string>, b: seq<string>)
  {
    exists p, i, q, j :: 0 <= p < |a| && 0 <= q < |b| && 0 <= i && i + |a[p]| <= j <= |s|
      && WordAt(s, i, a[p]) && WordAt(s, j, b[q]) && NoLineBreak(s, i + |a[p]|, j)
  }

  /** The first keyword among `kws` that occurs at `i`, as the index after it. */
  function KeywordEnd(s: string, i: nat, kws: seq<string>): (r: Option<nat>)
    ensures r.Some? <==> exists k :: 0 <= k < |kws| && LitAt(s, i, kws[k])
    ensures r.Some? ==> exists k :: 0 <= k < |kws| && LitAt(s, i, kws[k]) && r.value == i + |kws[k]|
  {
    if kws == [] then None
    else if LitAt(s, i, kws[0]) then Some(i + |kws[0]|)
    else
      var r := KeywordEnd(s, i, kws[1..]);
      assert forall k :: 1 <= k < |kws| ==> kws[k] == kws[1..][k - 1];
      r
  }

  /** `(?:rs\.?|inr)?` at `j`: where the optional currency word ends. */
  function CurrencyEnd(s: string, j: nat): (e: nat)
    requires j <= |s|
    ensures j <= e <= |s|
  {
    if LitAt(s, j, "rs.") then j + 3
    else if LitAt(s, j, "rs") then j + 2
    else if LitAt(s, j, "inr") then j + 3
    else j
  }

  /** `(?:kw0|kw1|...)\s*(?:rs\.?|inr)?\s*(\d+)` matched at `i`: the captured digits.
      The pattern is applied to lower-case text; the source's `/i` flag makes the
      two the same for ASCII letters. After the keyword, each optional piece can
      only be taken whole: what follows it (a digit) is never white space nor a
      letter of "rs"/"inr", so backtracking cannot produce another capture. */
  function CaptureAt(s: string, i: nat, kws: seq<string>): (r: Option<string>)
    ensures r.Some? ==> |r.value| >= 1 && forall k :: 0 <= k < |r.value| ==> IsDigit(r.value[k])
  {
    match KeywordEnd(s, i, kws)
    case None => None
    case Some(e) =>
      var d := SkipSpaces(s, CurrencyEnd(s, SkipSpaces(s, e)));
      var f := DigitEnd(s, d);
      if f > d then Some(s[d..f]) else None
  }

  /** `s.match(re)` without the `g` flag: the capture of the leftmost match at or after `i`. */
  function FirstCapture(s: string, i: nat, kws: seq<string>): (r: Option<string>)
    ensures r.Some? ==> |r.value| >= 1 && forall k :: 0 <= k < |r.value| ==> IsDigit(r.value[k])
    decreases |s| + 1 - i
  {
    if i > |s| then None
    else
      var c := CaptureAt(s, i, kws);
      if c.Some? then c else FirstCapture(s, i + 1, kws)
  }

  /** The leftmost position at or after `i` where the pattern matches gives the
      capture. */
  lemma LeftmostMatchIsCaptured(s: string, i: nat, p: nat, kws: seq<string>)
    requires i <= p <= |s| && CaptureAt(s, p, kws).Some?
    requires forall q :: i <= q < p ==> CaptureAt(s, q, kws).None?
    ensures FirstCapture(s, i, kws) == CaptureAt(s, p, kws)
  {
    NoCaptureSkip(s, i, p, kws);
  }

  /** Where the pattern matches nowhere at or after `i` there is no capture. */
  lemma NoMatchNoCapture(s: string, i: nat, kws: seq<string>)
    requires i <= |s| + 1
    requires forall q :: i <= q <= |s| ==> CaptureAt(s, q, kws).None?
    ensures FirstCapture(s, i, kws).None?
  {
    NoCaptureSkip(s, i, |s| + 1, kws);
  }

  /** Wherever the pattern matches at or after `i`, there is a capture. */
  lemma {:induction false} MatchIsCaptured(s: string, i: nat, q: nat, kws: seq<string>)
    requires i <= q <= |s| && CaptureAt(s, q, kws).Some?
    ensures FirstCapture(s, i, kws).Some?
    decreases q - i
  {
    if CaptureAt(s, i, kws).None? {
      MatchIsCaptured(s, i + 1, q, kws);
    }
  }

  /** Positions where no keyword starts contribute nothing to the leftmost match. */
  lemma FirstCaptureSkip(s: string, i: nat, p: nat, kws: seq<string>)
    requires i <= p <= |s|
    requires forall q, k :: i <= q < p && 0 <= k < |kws| ==> !LitAt(s, q, kws[k])
    ensures FirstCapture(s, i, kws) == FirstCapture(s, p, kws)
  {
    forall q | i <= q < p
      ensures CaptureAt(s, q, kws).None?
    {
      NoKeywordNoCapture(s, q, kws);
    }
    NoCaptureSkip(s, i, p, kws);
  }

  lemma {:induction false} NoCaptureSkip(s: string, i: nat, p: nat, kws: seq<string>)
    requires i <= p <= |s| + 1
    requires forall q :: i <= q < p ==> CaptureAt(s, q, kws).None?
    ensures FirstCapture(s, i, kws) == FirstCapture(s, p, kws)
    decreases p - i
  {
    if i < p {
      FirstCaptureStep(s, i, kws);
      NoCaptureSkip(s, i + 1, p, kws);
    }
  }

  lemma NoKeywordNoCapture(s: string, i: nat, kws: seq<string>)
    requires forall k :: 0 <= k < |kws| ==> !LitAt(s, i, kws[k])
    ensures CaptureAt(s, i, kws).None?
  {
    assert KeywordEnd(s, i, kws).None?;
  }

  lemma FirstCaptureStep(s: string, i: nat, kws: seq<string>)
    requires i <= |s| && CaptureAt(s, i, kws).None?
    ensures FirstCapture(s, i, kws) == FirstCapture(s, i + 1, kws)
  {
  }

  /** Without any keyword in the text there is no match at all. */
  lemma NoCapture(s: string, kws: seq<string>)
    requires forall k :: 0 <= k < |kws| ==> !Contains(s, kws[k])
    ensures FirstCapture(s, 0, kws).None?
  {
    forall q | 0 <= q <= |s|
      ensures CaptureAt(s, q, kws).None?
    {
      NoKeywordNoCapture(s, q, kws);
    }
    NoCaptureSkip(s, 0, |s| + 1, kws);
  }

  /** A literal occurs only where each of its characters occurs, as often as it
      occurs in the literal: a word holding a character the text lacks, or more
      copies of one than the text has, is matched nowhere. */
  lemma NotContainedByCount(s: string, w: string, c: char)
    requires multiset(w)[c] > multiset(s)[c]
    ensures !Contains(s, w)
    ensures forall i :: 0 <= i <= |s| ==> !LitAt(s, i, w) && !WordAt(s, i, w)
  {
    forall i | 0 <= i <= |s|
      ensures !LitAt(s, i, w)
    {
      NotLitAtByCount(s, i, w, c);
    }
  }

  lemma NotLitAtByCount(s: string, i: nat, w: string, c: char)
    requires multiset(w)[c] > multiset(s)[c]
    ensures !LitAt(s, i, w)
  {
    if i + |w| <= |s| {
      assert s == s[..i] + s[i..i + |w|] + s[i + |w|..];
    }
  }

  /** The same, for a character of the literal that the text lacks altogether. */
  lemma NotContainedByChar(s: string, w: string, c: char)
    requires c in w && c !in s
    ensures !Contains(s, w)
    ensures forall i :: 0 <= i <= |s| ==> !LitAt(s, i, w) && !WordAt(s, i, w)
  {
    assert multiset(s)[c] == 0;
    NotContainedByCount(s, w, c);
  }

  /** A literal longer than the text never occurs in it. */
  lemma NotContainedByLength(s: string, w: string)
    requires |w| > |s|
    ensures !Contains(s, w)
    ensures forall i :: 0 <= i <= |s| ==> !WordAt(s, i, w)
  {
  }
}
