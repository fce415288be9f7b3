/** Python's view of a text: which characters are whitespace, and the string
    methods built on that. */
module Text {

  /** The characters Python's str.isspace accepts; `\s` in a regular expression matches the same. */
  predicate IsSpace(c: char) {
    || '\U{0009}' <= c <= '\U{000D}'
    || '\U{001C}' <= c <= '\U{0020}'
    || c == '\U{0085}' || c == '\U{00A0}' || c == '\U{1680}'
    || '\U{2000}' <= c <= '\U{200A}'
    || c == '\U{2028}' || c == '\U{2029}' || c == '\U{202F}' || c == '\U{205F}' || c == '\U{3000}'
  }

  lemma KnownSpaces()
    ensures IsSpace('\n') && IsSpace(' ') && !IsSpace('x')
  {
  }

  predicate IsBlank(s: string) {
    forall i | 0 <= i < |s| :: IsSpace(s[i])
  }

  /** The first index at or after i that holds no whitespace, or the end. */
  function RunEnd(s: string, i: nat): (r: nat)
    requires i <= |s|
    ensures i <= r <= |s|
    ensures r < |s| ==> !IsSpace(s[r])
    decreases |s| - i
  {
    if i < |s| && IsSpace(s[i]) then RunEnd(s, i + 1) else i
  }

  lemma {:induction false} RunIsSpace(s: string, i: nat, k: nat)
    requires i <= |s| && i <= k < RunEnd(s, i)
    ensures IsSpace(s[k])
    decreases |s| - i
  {
    if i < k {
      RunIsSpace(s, i + 1, k);
    }
  }

  /** The end of the text in s[lo..hi] once whitespace at its right edge is dropped. */
  function TrimEnd(s: string, lo: nat, hi: nat): (r: nat)
    requires lo <= hi <= |s|
    ensures lo <= r <= hi
    ensures lo < r ==> !IsSpace(s[r - 1])
    decreases hi - lo
  {
    if lo < hi && IsSpace(s[hi - 1]) then TrimEnd(s, lo, hi - 1) else hi
  }

  lemma {:induction false} TrimmedIsSpace(s: string, lo: nat, hi: nat, k: nat)
    requires lo <= hi <= |s| && TrimEnd(s, lo, hi) <= k < hi
    ensures IsSpace(s[k])
    decreases hi - lo
  {
    if k < hi - 1 {
      TrimmedIsSpace(s, lo, hi - 1, k);
    }
  }

  function Strip(s: string): string {
    var start := RunEnd(s, 0);
    s[start..TrimEnd(s, start, |s|)]
  }

  /** str.split(): the maximal runs of characters that are not whitespace. */
  function Words(s: string): seq<string>
    decreases |s|
  {
    var start := RunEnd(s, 0);
    if start == |s| then []
    else
      var end := WordEnd(s, start);
      [s[start..end]] + Words(s[end..])
  }

  /** The first index at or after i that holds whitespace, or the end. */
  function WordEnd(s: string, i: nat): (r: nat)
    requires i < |s| && !IsSpace(s[i])
    ensures i < r <= |s|
    decreases |s| - i
  {
    if i + 1 < |s| && !IsSpace(s[i + 1]) then WordEnd(s, i + 1) else i + 1
  }

  function Join(separator: string, parts: seq<string>): string {
    if |parts| == 0 then ""
    else if |parts| == 1 then parts[0]
    else parts[0] + separator + Join(separator, parts[1..])
  }

  /** str.lower on ASCII letters. */
  function Lower(s: string): string {
    seq(|s|, i requires 0 <= i < |s| => if 'A' <= s[i] <= 'Z' then s[i] + ' ' else s[i])
  }

  /** The parts one after the other, with nothing between. */
  function Concat(parts: seq<string>): string {
    if parts == [] then "" else Concat(parts[..|parts| - 1]) + parts[|parts| - 1]
  }

  // --- What they mean -----------------------------------------------------------------------

  /** Stripping takes just the whitespace at both ends away. */
  lemma StripMeaning(s: string) returns (before: string, after: string)
    ensures s == before + Strip(s) + after && IsBlank(before) && IsBlank(after)
    ensures Strip(s) != "" ==> !IsSpace(Strip(s)[0]) && !IsSpace(Strip(s)[|Strip(s)| - 1])
    ensures Strip(s) == "" <==> IsBlank(s)
  {
    var start := RunEnd(s, 0);
    var end := TrimEnd(s, start, |s|);
    before, after := s[..start], s[end..];
    forall i | 0 <= i < |before|
      ensures IsSpace(before[i])
    {
      RunIsSpace(s, 0, i);
    }
    forall i | 0 <= i < |after|
      ensures IsSpace(after[i])
    {
      TrimmedIsSpace(s, start, |s|, end + i);
    }
    if start < end {
      assert s[start] == Strip(s)[0] && s[end - 1] == Strip(s)[|Strip(s)| - 1];
    } else {
      assert s == before + after;
    }
  }

  predicate IsWord(s: string) {
    s != "" && forall i | 0 <= i < |s| :: !IsSpace(s[i])
  }

  /** The word stands at i, with whitespace or an end of the text on both sides. */
  predicate StandsAt(s: string, word: string, i: nat) {
    && i + |word| <= |s| && s[i..i + |word|] == word && IsWord(word)
    && (i > 0 ==> IsSpace(s[i - 1])) && (i + |word| < |s| ==> IsSpace(s[i + |word|]))
  }

  lemma {:induction false} WordIsWord(s: string, i: nat, k: nat)
    requires i < |s| && !IsSpace(s[i]) && i <= k < WordEnd(s, i)
    ensures !IsSpace(s[k])
    ensures WordEnd(s, i) < |s| ==> IsSpace(s[WordEnd(s, i)])
    decreases |s| - i
  {
    if i + 1 < |s| && !IsSpace(s[i + 1]) {
      WordIsWord(s, i + 1, if k == i then i + 1 else k);
    }
  }

  /** Each word of a text stands in it, in order. */
  predicate AllStand(s: string, words: seq<string>, at: seq<nat>) {
    && |at| == |words|
    && (forall k | 0 <= k < |at| :: StandsAt(s, words[k], at[k]))
    && (forall j, k | 0 <= j < k < |at| :: at[j] + |words[j]| < at[k])
  }

  predicate Covers(words: seq<string>, at: seq<nat>, i: nat)
    requires |at| == |words|
  {
    exists k | 0 <= k < |at| :: at[k] <= i < at[k] + |words[k]|
  }

  /** From `from` on, the text's first word stands at start and ends at end. */
  predicate StandsFirst(s: string, from: nat, start: nat, end: nat) {
    && from <= start < end <= |s| && StandsAt(s, s[start..end], start)
    && forall i | from <= i < start :: IsSpace(s[i])
  }

  lemma FirstOf(t: string) returns (i: nat, j: nat)
    requires RunEnd(t, 0) < |t|
    ensures i < j <= |t| && (j < |t| ==> IsSpace(t[j]))
    ensures (forall k | 0 <= k < i :: IsSpace(t[k])) && forall k | i <= k < j :: !IsSpace(t[k])
    ensures Words(t) == [t[i..j]] + Words(t[j..])
  {
    i := RunEnd(t, 0);
    j := WordEnd(t, i);
    forall k | 0 <= k < i
      ensures IsSpace(t[k])
    {
      RunIsSpace(t, 0, k);
    }
    forall k | i <= k < j
      ensures !IsSpace(t[k])
    {
      WordIsWord(t, i, k);
    }
    WordIsWord(t, i, i);
  }

  lemma Shifted(s: string, from: nat, t: string, i: nat, j: nat)
    requires from <= |s| && t == s[from..] && i < j <= |t| && (0 < from < |s| ==> IsSpace(s[from]))
    requires (j < |t| ==> IsSpace(t[j]))
    requires (forall k | 0 <= k < i :: IsSpace(t[k])) && forall k | i <= k < j :: !IsSpace(t[k])
    ensures StandsFirst(s, from, from + i, from + j)
  {
    var word := t[i..j];
    assert s[from + i..from + j] == word;
    assert forall k | 0 <= k < |word| :: word[k] == t[i + k];
    forall k | from <= k < from + i
      ensures IsSpace(s[k])
    {
      assert s[k] == t[k - from];
    }
    assert i > 0 ==> s[from + i - 1] == t[i - 1];
    assert t[i] == s[from + i];
  }

  lemma FirstWord(s: string, from: nat) returns (start: nat, end: nat)
    requires from <= |s| && (0 < from < |s| ==> IsSpace(s[from])) && RunEnd(s[from..], 0) < |s[from..]|
    ensures StandsFirst(s, from, start, end)
    ensures Words(s[from..]) == [s[start..end]] + Words(s[end..])
  {
    var i, j := FirstOf(s[from..]);
    start, end := from + i, from + j;
    assert s[start..end] == s[from..][i..j] && s[end..] == s[from..][j..];
    Shifted(s, from, s[from..], i, j);
  }

  lemma NoWord(s: string, from: nat)
    requires from <= |s| && RunEnd(s[from..], 0) == |s[from..]|
    ensures Words(s[from..]) == [] && forall i | from <= i < |s| :: IsSpace(s[i])
  {
    forall i | from <= i < |s|
      ensures IsSpace(s[i])
    {
      RunIsSpace(s[from..], 0, i - from);
    }
  }

  /** These words stand there, from `from` on, and nothing but whitespace is outside them. */
  predicate AreWords(s: string, from: nat, words: seq<string>, at: seq<nat>) {
    && AllStand(s, words, at) && (forall k | 0 <= k < |at| :: from <= at[k])
    && forall i | from <= i < |s| && !IsSpace(s[i]) :: Covers(words, at, i)
  }

  lemma {:induction false} WordsStand(s: string, from: nat) returns (at: seq<nat>)
    requires from <= |s| && (0 < from < |s| ==> IsSpace(s[from]))
    ensures AreWords(s, from, Words(s[from..]), at)
    decreases |s| - from
  {
    if RunEnd(s[from..], 0) == |s[from..]| {
      at := [];
      NoWord(s, from);
    } else {
      var start, end := FirstWord(s, from);
      var rest := WordsStand(s, end);
      at := OneMoreWord(s, from, start, end, rest, Words(s[end..]));
    }
  }

  lemma OneMoreWord(s: string, from: nat, start: nat, end: nat, rest: seq<nat>, words: seq<string>)
      returns (at: seq<nat>)
    requires StandsFirst(s, from, start, end) && AreWords(s, end, words, rest)
    ensures AreWords(s, from, [s[start..end]] + words, at)
  {
    var all := [s[start..end]] + words;
    at := [start] + rest;
    forall k | 0 <= k < |at|
      ensures StandsAt(s, all[k], at[k]) && (k > 0 ==> at[k] > end)
    {
      if k > 0 {
        LaterStands(s, end, words[k - 1], rest[k - 1]);
      }
    }
    forall i | from <= i < |s| && !IsSpace(s[i])
      ensures Covers(all, at, i)
    {
      OneMoreCovers(s[start..end], start, words, rest, all, at, i);
    }
  }

  /** The next word does not stand right at the end of the one before. */
  lemma LaterStands(s: string, end: nat, word: string, i: nat)
    requires StandsAt(s, word, i) && end <= i && (end < |s| ==> IsSpace(s[end]))
    ensures i > end
  {
    assert word[0] == s[i..i + |word|][0] == s[i];
  }

  lemma OneMoreCovers(word: string, start: nat, words: seq<string>, rest: seq<nat>, all: seq<string>, at: seq<nat>,
                      i: nat)
    requires all == [word] + words && at == [start] + rest && |rest| == |words|
    requires start <= i < start + |word| || Covers(words, rest, i)
    ensures Covers(all, at, i)
  {
    if start <= i < start + |word| {
      assert at[0] == start && all[0] == word;
    } else {
      var k :| 0 <= k < |rest| && rest[k] <= i < rest[k] + |words[k]|;
      assert at[k + 1] == rest[k] && all[k + 1] == words[k];
    }
  }

  /** The words of a text: they stand in it in order, each between whitespace, and nothing but
      whitespace is outside them. */
  lemma WordsMeaning(s: string) returns (at: seq<nat>)
    ensures AreWords(s, 0, Words(s), at)
  {
    assert s[0..] == s;
    at := WordsStand(s, 0);
  }

  // --- Joined words ----------------------------------------------------------------------------

  predicate AllWords(words: seq<string>) {
    forall k | 0 <= k < |words| :: IsWord(words[k])
  }

  lemma WordsAreWords(s: string)
    ensures AllWords(Words(s))
  {
    var at := WordsMeaning(s);
    assert forall k | 0 <= k < |at| :: StandsAt(s, Words(s)[k], at[k]);
  }

  /** Words joined by spaces are the same only if the words are. */
  lemma {:induction false} JoinedOnce(a: seq<string>, b: seq<string>)
    requires AllWords(a) && AllWords(b) && Join(" ", a) == Join(" ", b)
    ensures a == b
  {
    if a != [] && b != [] {
      FirstOfJoined(a, b);
      if |a| > 1 && |b| > 1 {
        RestOfJoined(a);
        RestOfJoined(b);
        JoinedOnce(a[1..], b[1..]);
        assert a == [a[0]] + a[1..] && b == [b[0]] + b[1..];
      }
    }
  }

  lemma RestOfJoined(a: seq<string>)
    requires |a| > 1
    ensures |Join(" ", a)| > |a[0]| && Join(" ", a)[|a[0]|] == ' ' && Join(" ", a)[..|a[0]|] == a[0]
    ensures Join(" ", a)[|a[0]| + 1..] == Join(" ", a[1..])
  {
  }

  lemma FirstIsLonger(a: seq<string>, word: string)
    requires |a| > 1 && IsWord(word) && word <= Join(" ", a)
    ensures |word| <= |a[0]|
  {
    var s := Join(" ", a);
    KnownSpaces();
    RestOfJoined(a);
    assert forall i | 0 <= i < |word| :: s[i] == word[i] && !IsSpace(s[i]);
  }

  lemma FirstIsPrefix(a: seq<string>)
    requires a != []
    ensures a[0] <= Join(" ", a)
  {
  }

  lemma FirstOfJoined(a: seq<string>, b: seq<string>)
    requires a != [] && b != [] && AllWords(a) && AllWords(b) && Join(" ", a) == Join(" ", b)
    ensures a[0] == b[0] && (|a| > 1 <==> |b| > 1)
  {
    assert IsWord(a[0]) && IsWord(b[0]);
    FirstIsPrefix(a);
    FirstIsPrefix(b);
    if |a| > 1 {
      FirstIsLonger(a, b[0]);
      RestOfJoined(a);
    }
    if |b| > 1 {
      FirstIsLonger(b, a[0]);
      RestOfJoined(b);
    }
  }

  function AllLower(words: seq<string>): (lower: seq<string>)
    ensures |lower| == |words| && forall k | 0 <= k < |words| :: lower[k] == Lower(words[k])
  {
    seq(|words|, k requires 0 <= k < |words| => Lower(words[k]))
  }

  lemma LowerAppend(a: string, b: string)
    ensures Lower(a + b) == Lower(a) + Lower(b)
  {
  }

  lemma {:induction false} LowerJoined(words: seq<string>)
    ensures Lower(Join(" ", words)) == Join(" ", AllLower(words))
  {
    if |words| > 1 {
      LowerJoined(words[1..]);
      LowerAppend(words[0] + " ", Join(" ", words[1..]));
      LowerAppend(words[0], " ");
      assert AllLower(words)[1..] == AllLower(words[1..]);
      assert Lower(" ") == " ";
    }
  }

  lemma LowerIsWord(word: string)
    requires IsWord(word)
    ensures IsWord(Lower(word))
  {
    forall i | 0 <= i < |word|
      ensures !IsSpace(Lower(word)[i])
    {
      assert !IsSpace(word[i]);
    }
  }

  /** The same words but for the case of their letters. */
  predicate SameWords(a: string, b: string) {
    && |Words(a)| == |Words(b)|
    && forall k | 0 <= k < |Words(a)| :: Lower(Words(a)[k]) == Lower(Words(b)[k])
  }

  lemma SameWhenNormalized(a: string, b: string)
    ensures Lower(Join(" ", Words(a))) == Lower(Join(" ", Words(b))) <==> SameWords(a, b)
  {
    var v, w := AllLower(Words(a)), AllLower(Words(b));
    LowerJoined(Words(a));
    LowerJoined(Words(b));
    LoweredWords(a);
    LoweredWords(b);
    if Join(" ", v) == Join(" ", w) {
      JoinedOnce(v, w);
    }
    if SameWords(a, b) {
      assert v == w;
    }
  }

  lemma LoweredWords(s: string)
    ensures AllWords(AllLower(Words(s)))
  {
    WordsAreWords(s);
    forall k | 0 <= k < |Words(s)|
      ensures IsWord(AllLower(Words(s))[k])
    {
      LowerIsWord(Words(s)[k]);
    }
  }
}
