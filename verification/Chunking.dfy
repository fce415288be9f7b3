/** The pieces of a thought: a head made of its fields, then overlapping ranges of its raw text. */
module Chunking {
  import opened Wrappers
  import opened Text

  const TARGET: nat := 800
  const OVERLAP: nat := 100
  const MIN_BREAK: nat := 400
  const MAX_CHUNK: nat := 1000

  /** Characters start..end of a raw text. */
  datatype Range = Range(start: nat, end: nat)

  datatype Piece = Piece(chunk: nat, text: string, range: Option<Range>)

  // --- Where a range may end ---------------------------------------------------

  /** The last newline in w[lo..hi]. */
  function LastNewline(w: string, lo: nat, hi: nat): (r: Option<nat>)
    requires lo <= hi <= |w|
    ensures r.Some? ==> lo <= r.value < hi && w[r.value] == '\n'
  {
    if lo == hi then None
    else if w[hi - 1] == '\n' then Some(hi - 1)
    else LastNewline(w, lo, hi - 1)
  }

  lemma {:induction false} NoLaterNewline(w: string, lo: nat, hi: nat, k: nat)
    requires lo <= k < hi <= |w| && w[k] == '\n'
    ensures LastNewline(w, lo, hi).Some? && k <= LastNewline(w, lo, hi).value
  {
    if k < hi - 1 {
      NoLaterNewline(w, lo, hi - 1, k);
    }
  }

  lemma {:induction false} NoneAfterLast(w: string, lo: nat, hi: nat)
    requires lo <= hi <= |w| && LastNewline(w, lo, hi).Some?
    ensures LastNewline(w, LastNewline(w, lo, hi).value + 1, hi) == None
  {
    if w[hi - 1] != '\n' {
      NoneAfterLast(w, lo, hi - 1);
    }
  }

  /** The end of a match of `\n\s*\n` at i: the greedy run gives back what follows its last newline. */
  function ParagraphMatch(w: string, i: nat): (r: Option<nat>)
    requires i < |w|
    ensures r.Some? ==> i + 2 <= r.value <= |w|
  {
    if w[i] != '\n' then None
    else
      match LastNewline(w, i + 1, RunEnd(w, i + 1))
      case None => None
      case Some(j) => Some(j + 1)
  }

  /** The ends of the matches of `\n\s*\n`, each looked for from the end of the one before. */
  function Paragraphs(w: string, i: nat): seq<nat>
    requires i <= |w|
    decreases |w| - i
  {
    if i == |w| then []
    else
      match ParagraphMatch(w, i)
      case None => Paragraphs(w, i + 1)
      case Some(end) => [end] + Paragraphs(w, end)
  }

  /** A match of `[.!?](?=\s)|\n` at i. */
  predicate SentenceMatch(w: string, i: nat)
    requires i < |w|
  {
    w[i] == '\n' || (w[i] in ".!?" && i + 1 < |w| && IsSpace(w[i + 1]))
  }

  function Sentences(w: string, i: nat): seq<nat>
    requires i <= |w|
    decreases |w| - i
  {
    if i == |w| then []
    else (if SentenceMatch(w, i) then [i + 1] else []) + Sentences(w, i + 1)
  }

  function Spaces(w: string, i: nat): seq<nat>
    requires i <= |w|
    decreases |w| - i
  {
    if i == |w| then []
    else (if IsSpace(w[i]) then [i] else []) + Spaces(w, i + 1)
  }

  function Distance(a: int, b: int): nat {
    if a < b then b - a else a - b
  }

  /** The position nearest to the aim, the first one on a tie. */
  function Closest(positions: seq<nat>, aim: int): (r: Option<nat>)
    ensures r.None? <==> positions == []
    ensures r.Some? ==> r.value in positions
    ensures r.Some? ==> forall p | p in positions :: Distance(r.value, aim) <= Distance(p, aim)
  {
    if positions == [] then None
    else
      match Closest(positions[1..], aim)
      case None => Some(positions[0])
      case Some(p) => Some(if Distance(positions[0], aim) <= Distance(p, aim) then positions[0] else p)
  }

  /** The break chosen in the window: a paragraph's if there is one, else a sentence's, else a space's. */
  function WindowBreak(w: string, aim: nat): nat {
    match Closest(Paragraphs(w, 0), aim)
    case Some(p) => p
    case None =>
      match Closest(Sentences(w, 0), aim)
      case Some(p) => p
      case None => Closest(Spaces(w, 0), aim).GetOr(aim)
  }

  /** Where the range starting at `start` should end. */
  function BestBreak(text: string, start: nat): nat
    requires start <= |text|
  {
    if |text| - start <= MAX_CHUNK then |text|
    else
      start + MIN_BREAK + WindowBreak(text[start + MIN_BREAK..start + MAX_CHUNK], TARGET - MIN_BREAK)
  }

  // The breaks, said without the scanners.

  /** A newline at q, another at p - 1, and nothing but whitespace from the one to the other. */
  predicate BlankLine(w: string, q: nat, p: nat) {
    q + 1 < p <= |w| && w[q] == '\n' && w[p - 1] == '\n' && p <= RunEnd(w, q)
  }

  /** After the last newline of a run of whitespace that holds an earlier newline too. */
  predicate IsParagraphBreak(w: string, from: nat, p: nat) {
    && (exists q: nat | from <= q < p :: BlankLine(w, q, p))
    && p <= |w|
    && LastNewline(w, p, RunEnd(w, p)) == None
  }

  predicate IsSentenceBreak(w: string, p: nat) {
    1 <= p <= |w| && (w[p - 1] == '\n' || (w[p - 1] in ".!?" && p < |w| && IsSpace(w[p])))
  }

  lemma RunEndUnique(w: string, i: nat, j: nat)
    requires i <= |w| && i <= j <= RunEnd(w, i)
    ensures RunEnd(w, j) == RunEnd(w, i)
    decreases j - i
  {
    if i < j {
      RunEndUnique(w, i + 1, j);
    }
  }

  lemma NoMatchNoBreak(w: string, i: nat, p: nat)
    requires i < |w| && ParagraphMatch(w, i) == None
    ensures !BlankLine(w, i, p)
  {
    KnownSpaces();
    if w[i] == '\n' {
      RunEndUnique(w, i, i + 1);
      if i + 1 < p <= RunEnd(w, i) && w[p - 1] == '\n' {
        NoLaterNewline(w, i + 1, RunEnd(w, i + 1), p - 1);
      }
    }
  }

  lemma MatchIsBreak(w: string, i: nat, end: nat)
    requires i < |w| && ParagraphMatch(w, i) == Some(end)
    ensures BlankLine(w, i, end) && RunEnd(w, end) == RunEnd(w, i)
    ensures LastNewline(w, end, RunEnd(w, end)) == None
  {
    KnownSpaces();
    RunEndUnique(w, i, i + 1);
    RunEndUnique(w, i, end);
    NoneAfterLast(w, i + 1, RunEnd(w, i));
  }

  /** A break opened inside a match is the end of that match. */
  lemma BreakInsideMatch(w: string, i: nat, end: nat, q: nat, p: nat)
    requires i < |w| && ParagraphMatch(w, i) == Some(end) && i <= q < end && BlankLine(w, q, p)
    requires LastNewline(w, p, RunEnd(w, p)) == None
    ensures p == end
  {
    MatchIsBreak(w, i, end);
    RunEndUnique(w, i, q);
    RunEndUnique(w, i, p);
    if p < end {
      NoLaterNewline(w, p, RunEnd(w, p), end - 1);
    } else if end < p {
      NoLaterNewline(w, end, RunEnd(w, end), p - 1);
    }
  }

  /** The paragraph scanner finds exactly the ends of blank lines: one for each
      run of whitespace that holds two newlines, after the last of them. */
  lemma {:induction false} ParagraphsExact(w: string, i: nat, p: nat)
    requires i <= |w|
    ensures p in Paragraphs(w, i) <==> IsParagraphBreak(w, i, p)
    decreases |w| - i
  {
    if i < |w| {
      match ParagraphMatch(w, i)
      case None =>
        ParagraphsExact(w, i + 1, p);
        NoMatchNoBreak(w, i, p);
      case Some(end) =>
        ParagraphsExact(w, end, p);
        MatchIsBreak(w, i, end);
        if IsParagraphBreak(w, i, p) && p != end {
          var q: nat :| i <= q < p && BlankLine(w, q, p);
          if q < end { BreakInsideMatch(w, i, end, q, p); }
        }
    }
  }

  lemma {:induction false} SentencesExact(w: string, i: nat, p: nat)
    requires i <= |w|
    ensures p in Sentences(w, i) <==> i < p && IsSentenceBreak(w, p)
    decreases |w| - i
  {
    if i < |w| {
      SentencesExact(w, i + 1, p);
    }
  }

  lemma {:induction false} SpacesExact(w: string, i: nat, p: nat)
    requires i <= |w|
    ensures p in Spaces(w, i) <==> i <= p < |w| && IsSpace(w[p])
    decreases |w| - i
  {
    if i < |w| {
      SpacesExact(w, i + 1, p);
    }
  }

  /** The kind of break at position p of a window: 3 a paragraph, 2 a sentence, 1 a space, 0 none. */
  function Kind(w: string, p: nat): nat {
    if IsParagraphBreak(w, 0, p) then 3
    else if IsSentenceBreak(w, p) then 2
    else if p < |w| && IsSpace(w[p]) then 1
    else 0
  }

  lemma KindByScan(w: string, p: nat)
    ensures Kind(w, p) ==
            if p in Paragraphs(w, 0) then 3 else if p in Sentences(w, 0) then 2 else if p in Spaces(w, 0) then 1 else 0
    ensures p in Paragraphs(w, 0) + Sentences(w, 0) + Spaces(w, 0) ==> p <= |w|
  {
    ParagraphsExact(w, 0, p);
    SentencesExact(w, 0, p);
    SpacesExact(w, 0, p);
  }

  /** No position of the window is a better kind of break, and none of the same kind is nearer to the target. */
  ghost predicate IsBest(w: string, aim: nat, best: nat) {
    && (forall p: nat :: Kind(w, p) <= Kind(w, best))
    && (Kind(w, best) > 0 ==> forall p: nat | Kind(w, p) == Kind(w, best) :: Distance(best, aim) <= Distance(p, aim))
    && (Kind(w, best) == 0 ==> best == aim)
  }

  lemma BreakInWindow(w: string, aim: nat)
    requires aim < |w|
    ensures WindowBreak(w, aim) <= |w| && IsBest(w, aim, WindowBreak(w, aim))
  {
    var best := WindowBreak(w, aim);
    KindByScan(w, best);
    forall p: nat
      ensures Kind(w, p) <= Kind(w, best)
      ensures Kind(w, best) > 0 && Kind(w, p) == Kind(w, best) ==> Distance(best, aim) <= Distance(p, aim)
    {
      KindByScan(w, p);
    }
  }

  /** A text with more than MAX_CHUNK characters left is cut 400 to 1000 characters on: at the
      best kind of break there is in that window, and at the one of its kind nearest to the target. */
  lemma BestBreakIsBest(text: string, start: nat)
    requires start + MAX_CHUNK < |text|
    ensures start + MIN_BREAK <= BestBreak(text, start) <= start + MAX_CHUNK
    ensures IsBest(text[start + MIN_BREAK..start + MAX_CHUNK], TARGET - MIN_BREAK,
                   BestBreak(text, start) - start - MIN_BREAK)
  {
    var w := text[start + MIN_BREAK..start + MAX_CHUNK];
    assert |w| == MAX_CHUNK - MIN_BREAK;
    BreakInWindow(w, TARGET - MIN_BREAK);
    BreakOfLongText(text, start);
  }

  lemma BreakOfLongText(text: string, start: nat)
    requires start + MAX_CHUNK < |text|
    ensures BestBreak(text, start) ==
            start + MIN_BREAK + WindowBreak(text[start + MIN_BREAK..start + MAX_CHUNK], TARGET - MIN_BREAK)
  {
  }

  // --- The ranges --------------------------------------------------------------

  /** The first position at or after `from`, and before `end`, that starts a word, else `end`. */
  function WordStart(text: string, from: nat, end: nat): (r: nat)
    requires 0 < from && end <= |text|
    decreases end - from
  {
    if end <= from then end
    else if IsSpace(text[from - 1]) && !IsSpace(text[from]) then from
    else WordStart(text, from + 1, end)
  }

  function NextStart(text: string, end: nat, start: nat): (r: nat)
    requires start < end <= |text|
  {
    WordStart(text, Max(end - OVERLAP, start + 1), end)
  }

  function Max(a: int, b: int): int {
    if a < b then b else a
  }

  lemma {:induction false} WordStartMeaning(text: string, from: nat, end: nat)
    requires 0 < from <= end <= |text|
    ensures from <= WordStart(text, from, end) <= end
    ensures WordStart(text, from, end) < end ==>
              IsSpace(text[WordStart(text, from, end) - 1]) && !IsSpace(text[WordStart(text, from, end)])
    ensures forall p | from <= p < WordStart(text, from, end) :: !(IsSpace(text[p - 1]) && !IsSpace(text[p]))
    decreases end - from
  {
    if from < end {
      WordStartMeaning(text, from + 1, end);
    }
  }

  /** The next start, by two loops: on past the word that OVERLAP falls in, then past whitespace. */
  method FindNextStart(text: string, end: nat, start: nat) returns (position: nat)
    requires start < end <= |text|
    ensures position == NextStart(text, end, start)
  {
    position := Max(end - OVERLAP, start + 1);
    while position < end && !IsSpace(text[position - 1])
      invariant 0 < position <= end
      invariant WordStart(text, position, end) == NextStart(text, end, start)
    {
      position := position + 1;
    }
    while position < end && IsSpace(text[position])
      invariant 0 < position <= end
      invariant position < end ==> IsSpace(text[position - 1])
      invariant WordStart(text, position, end) == NextStart(text, end, start)
    {
      position := position + 1;
    }
  }

  /** The range from `start` to the untrimmed `end`, unless it holds whitespace only. */
  function Trimmed(text: string, start: nat, end: nat): seq<Range>
    requires start <= end <= |text|
  {
    var t := TrimEnd(text, start, end);
    if start < t then [Range(start, t)] else []
  }

  /** Where a range starting at each position of the text would end. */
  function Breaks(text: string): seq<nat> {
    seq(|text|, start requires 0 <= start < |text| => BestBreak(text, start))
  }

  /** What the ranges need of the breaks, wherever the scanners found them. */
  predicate InBounds(text: string, breaks: seq<nat>) {
    && |breaks| == |text|
    && forall start | 0 <= start < |text| ::
         && start < breaks[start] <= |text|
         && breaks[start] <= start + MAX_CHUNK
         && (breaks[start] < |text| ==> start + MIN_BREAK <= breaks[start])
  }

  lemma BreaksInBounds(text: string)
    ensures InBounds(text, Breaks(text))
  {
    forall start | 0 <= start < |text| && start + MAX_CHUNK < |text|
      ensures start + MIN_BREAK <= BestBreak(text, start) <= start + MAX_CHUNK
    {
      BestBreakIsBest(text, start);
    }
  }

  lemma NextStartBounds(text: string, end: nat, start: nat)
    requires start < end < |text| && start + MIN_BREAK <= end
    ensures start + MIN_BREAK - OVERLAP <= NextStart(text, end, start) <= end
    ensures end <= NextStart(text, end, start) + OVERLAP
    ensures NextStart(text, end, start) < end ==> IsSpace(text[NextStart(text, end, start) - 1])
  {
    WordStartMeaning(text, Max(end - OVERLAP, start + 1), end);
  }

  /** The ranges of the text from `start` on, cut at these breaks. */
  function RangesFrom(text: string, breaks: seq<nat>, start: nat): seq<Range>
    requires InBounds(text, breaks) && start <= |text|
    decreases |text| - start
  {
    if start == |text| then []
    else
      var end := breaks[start];
      Trimmed(text, start, end) +
      if end == |text| then []
      else
        NextStartBounds(text, end, start);
        RangesFrom(text, breaks, NextStart(text, end, start))
  }

  function Normalized(text: string): string {
    Lower(Join(" ", Words(text)))
  }

  /** There is raw text, and it says more than the summary. */
  predicate Adds(rawText: string, summary: string) {
    !IsBlank(rawText) && Normalized(rawText) != Normalized(summary)
  }

  function Ranges(rawText: Option<string>, summary: string): seq<Range> {
    match rawText
    case None => []
    case Some(text) =>
      BreaksInBounds(text);
      if Adds(text, summary) then RangesFrom(text, Breaks(text), RunEnd(text, 0)) else []
  }

  /** The ranges that the pieces after the head point at. */
  method ChunkRawText(rawText: Option<string>, summary: string) returns (ranges: seq<Range>)
    ensures ranges == Ranges(rawText, summary)
  {
    if rawText.None? || !Adds(rawText.value, summary) {
      return [];
    }
    BreaksInBounds(rawText.value);
    ranges := CutText(rawText.value, RunEnd(rawText.value, 0));
  }

  /** One cut: the range up to `end`, if it holds text, and the ranges from `next` on. */
  lemma Cut(text: string, breaks: seq<nat>, start: nat)
      returns (end: nat, next: nat, head: seq<Range>, rest: seq<Range>)
    requires InBounds(text, breaks) && start < |text|
    ensures start < end <= |text| && end <= start + MAX_CHUNK && end == breaks[start]
    ensures head == Trimmed(text, start, end)
    ensures RangesFrom(text, breaks, start) == head + rest
    ensures end == |text| ==> rest == []
    ensures end < |text| ==>
              && start + (MIN_BREAK - OVERLAP) <= next <= end <= next + OVERLAP
              && (next == end || IsSpace(text[next - 1]))
              && next == NextStart(text, end, start)
              && rest == RangesFrom(text, breaks, next)
  {
    end := breaks[start];
    head := Trimmed(text, start, end);
    if end < |text| {
      NextStartBounds(text, end, start);
      next := NextStart(text, end, start);
      rest := RangesFrom(text, breaks, next);
    } else {
      next, rest := end, [];
    }
  }

  method CutText(text: string, first: nat) returns (ranges: seq<Range>)
    requires first <= |text|
    requires InBounds(text, Breaks(text))
    ensures ranges == RangesFrom(text, Breaks(text), first)
  {
    ghost var breaks := Breaks(text);
    ranges := [];
    var start := first;
    while start < |text|
      invariant start <= |text|
      invariant ranges + RangesFrom(text, breaks, start) == RangesFrom(text, breaks, first)
    {
      var end := BestBreak(text, start);
      assert end == breaks[start];
      ghost var _, next, head, rest := Cut(text, breaks, start);
      Assoc(ranges, head, rest);
      var trimmedEnd := TrimRight(text, start, end);
      if trimmedEnd > start {
        ranges := ranges + [Range(start, trimmedEnd)];
      }
      if end >= |text| {
        return;
      }
      start := FindNextStart(text, end, start);
    }
  }

  method TrimRight(text: string, start: nat, end: nat) returns (trimmedEnd: nat)
    requires start <= end <= |text|
    ensures trimmedEnd == TrimEnd(text, start, end)
  {
    trimmedEnd := end;
    while trimmedEnd > start && IsSpace(text[trimmedEnd - 1])
      invariant start <= trimmedEnd <= end
      invariant TrimEnd(text, start, trimmedEnd) == TrimEnd(text, start, end)
    {
      trimmedEnd := trimmedEnd - 1;
    }
  }

  // --- What the ranges promise -------------------------------------------------

  /** Character c of the text lies in one of the ranges. */
  ghost predicate InRange(ranges: seq<Range>, c: nat) {
    exists r :: r in ranges && r.start <= c < r.end
  }

  /** Every character that is not whitespace lies in a range. */
  lemma {:induction false} Covered(text: string, breaks: seq<nat>, start: nat, c: nat)
    requires InBounds(text, breaks) && start <= c < |text| && !IsSpace(text[c])
    ensures InRange(RangesFrom(text, breaks, start), c)
    decreases |text| - start
  {
    var end, next, head, rest := Cut(text, breaks, start);
    if c < end {
      if TrimEnd(text, start, end) <= c {
        TrimmedIsSpace(text, start, end, c);
      }
      assert head[0] in RangesFrom(text, breaks, start);
    } else {
      Covered(text, breaks, next, c);
      var r :| r in rest && r.start <= c < r.end;
      assert r in RangesFrom(text, breaks, start);
    }
  }

  /** Not empty, at most MAX_CHUNK long, and ending at a character that is not whitespace. */
  predicate WellCut(text: string, r: Range) {
    r.start < r.end <= |text| && r.end - r.start <= MAX_CHUNK && !IsSpace(text[r.end - 1])
  }

  predicate AllWellCut(text: string, from: nat, ranges: seq<Range>) {
    forall i | 0 <= i < |ranges| :: from <= ranges[i].start && WellCut(text, ranges[i])
  }

  lemma AllWellCutAppend(text: string, from: nat, next: nat, head: seq<Range>, rest: seq<Range>)
    requires AllWellCut(text, from, head) && AllWellCut(text, next, rest) && from <= next
    ensures AllWellCut(text, from, head + rest)
  {
  }

  lemma {:induction false} RangeShape(text: string, breaks: seq<nat>, start: nat)
    requires InBounds(text, breaks) && start <= |text|
    ensures AllWellCut(text, start, RangesFrom(text, breaks, start))
    decreases |text| - start
  {
    if start < |text| {
      var end, next, head, rest := Cut(text, breaks, start);
      if end < |text| {
        RangeShape(text, breaks, next);
      }
      AllWellCutAppend(text, start, if end < |text| then next else start, head, rest);
    }
  }

  /** The first range starts where it was asked to, or after whitespace. */
  predicate StartsFirst(text: string, start: nat, ranges: seq<Range>) {
    ranges != [] ==>
      && start <= ranges[0].start < |text|
      && (start < ranges[0].start ==> IsSpace(text[ranges[0].start - 1]))
  }

  lemma {:induction false} FirstStart(text: string, breaks: seq<nat>, start: nat)
    requires InBounds(text, breaks) && start <= |text|
    ensures StartsFirst(text, start, RangesFrom(text, breaks, start))
    decreases |text| - start
  {
    if start < |text| {
      var end, next, head, rest := Cut(text, breaks, start);
      if head != [] {
        HeadStarts(text, start, head, rest);
      } else if end < |text| {
        TrimmedIsSpace(text, start, end, end - 1);
        FirstStart(text, breaks, next);
        LaterStart(text, start, next, rest);
        assert head + rest == rest;
      }
    }
  }

  lemma HeadStarts(text: string, start: nat, head: seq<Range>, rest: seq<Range>)
    requires start < |text| && head != [] && head[0].start == start
    ensures StartsFirst(text, start, head + rest)
  {
    assert (head + rest)[0] == head[0];
  }

  lemma LaterStart(text: string, start: nat, next: nat, ranges: seq<Range>)
    requires start < next <= |text| && IsSpace(text[next - 1]) && StartsFirst(text, next, ranges)
    ensures StartsFirst(text, start, ranges)
  {
  }

  /** What holds between a range and the one after it. */
  predicate Follows(text: string, r: Range, next: Range) {
    && r.start + (MIN_BREAK - OVERLAP) <= next.start < |text|
    && r.end <= next.start + OVERLAP
    && (next.start == r.end || IsSpace(text[next.start - 1]))
  }

  predicate Chained(text: string, ranges: seq<Range>) {
    forall i | 0 <= i < |ranges| - 1 :: Follows(text, ranges[i], ranges[i + 1])
  }

  lemma ChainedCons(text: string, head: seq<Range>, rest: seq<Range>)
    requires |head| <= 1 && Chained(text, rest)
    requires head != [] && rest != [] ==> Follows(text, head[0], rest[0])
    ensures Chained(text, head + rest)
  {
    var all := head + rest;
    forall i | 0 <= i < |all| - 1
      ensures Follows(text, all[i], all[i + 1])
    {
      assert all[i + 1] == rest[i + 1 - |head|];
      if i >= |head| {
        assert all[i] == rest[i - |head|];
      }
    }
  }

  /** Starts advance by at least MIN_BREAK - OVERLAP, neighbours share at most
      OVERLAP characters, and each later range starts after whitespace or right
      where the one before ended. */
  lemma {:induction false} Neighbours(text: string, breaks: seq<nat>, start: nat)
    requires InBounds(text, breaks) && start <= |text|
    ensures Chained(text, RangesFrom(text, breaks, start))
    decreases |text| - start
  {
    if start < |text| {
      var end, next, head, rest := Cut(text, breaks, start);
      if end < |text| {
        Neighbours(text, breaks, next);
        FirstStart(text, breaks, next);
        if head != [] && rest != [] {
          HeadFollowed(text, start, end, next, rest[0]);
        }
      }
      ChainedCons(text, head, rest);
    }
  }

  lemma HeadFollowed(text: string, start: nat, end: nat, next: nat, r: Range)
    requires start < end <= |text| && start + (MIN_BREAK - OVERLAP) <= next <= end <= next + OVERLAP
    requires next == end || IsSpace(text[next - 1])
    requires next <= r.start < |text| && (next < r.start ==> IsSpace(text[r.start - 1]))
    ensures Follows(text, Range(start, TrimEnd(text, start, end)), r)
  {
    if TrimEnd(text, start, end) < end {
      TrimmedIsSpace(text, start, end, end - 1);
    }
  }

  /** No character lies in more than two ranges. */
  lemma {:induction false} AtMostTwo(text: string, ranges: seq<Range>, i: nat, j: nat)
    requires Chained(text, ranges) && i + 2 <= j < |ranges|
    ensures ranges[i].end < ranges[j].start
  {
    assert Follows(text, ranges[j - 1], ranges[j]);
    if i + 2 == j {
      assert Follows(text, ranges[i], ranges[i + 1]);
    } else {
      AtMostTwo(text, ranges, i, j - 1);
    }
  }

  lemma {:induction false} StartsAdvance(text: string, ranges: seq<Range>, i: nat)
    requires Chained(text, ranges) && i < |ranges|
    ensures ranges[i].start >= i * (MIN_BREAK - OVERLAP)
  {
    if i > 0 {
      StartsAdvance(text, ranges, i - 1);
      assert Follows(text, ranges[i - 1], ranges[i]);
    }
  }

  /** Each range follows from the one before, and only neighbours share characters. */
  ghost predicate Spaced(text: string, ranges: seq<Range>) {
    && Chained(text, ranges)
    && (forall i, j | 0 <= i && i + 2 <= j < |ranges| :: ranges[i].end < ranges[j].start)
  }

  /** What the chunker promises of the ranges of one raw text: nothing is lost,
      the ranges are bounded, and only neighbours overlap, by little. */
  ghost predicate Promise(text: string, ranges: seq<Range>) {
    && ranges != []
    && (|ranges| - 1) * (MIN_BREAK - OVERLAP) < |text|
    && (forall c: nat | c < |text| && !IsSpace(text[c]) :: InRange(ranges, c))
    && (forall r | r in ranges :: WellCut(text, r))
    && Spaced(text, ranges)
  }

  lemma PromiseOf(text: string, ranges: seq<Range>)
    requires ranges != [] && Chained(text, ranges)
    requires forall c: nat | c < |text| && !IsSpace(text[c]) :: InRange(ranges, c)
    requires forall r | r in ranges :: WellCut(text, r)
    ensures Promise(text, ranges)
  {
    StartsAdvance(text, ranges, |ranges| - 1);
    assert ranges[|ranges| - 1] in ranges;
    forall i, j | 0 <= i && i + 2 <= j < |ranges|
      ensures ranges[i].end < ranges[j].start
    {
      AtMostTwo(text, ranges, i, j);
    }
  }

  lemma RangesPromise(text: string, breaks: seq<nat>, start: nat)
    requires InBounds(text, breaks) && start < |text| && !IsSpace(text[start])
    requires forall c | 0 <= c < start :: IsSpace(text[c])
    ensures Promise(text, RangesFrom(text, breaks, start))
  {
    Covered(text, breaks, start, start);
    Neighbours(text, breaks, start);
    RangeShape(text, breaks, start);
    forall c: nat | c < |text| && !IsSpace(text[c])
      ensures InRange(RangesFrom(text, breaks, start), c)
    {
      Covered(text, breaks, start, c);
    }
    PromiseOf(text, RangesFrom(text, breaks, start));
  }

  lemma ChunkerPromise(text: string, summary: string)
    requires Adds(text, summary)
    ensures Promise(text, Ranges(Some(text), summary))
  {
    BreaksInBounds(text);
    var start := RunEnd(text, 0);
    forall c | 0 <= c < start
      ensures IsSpace(text[c])
    {
      RunIsSpace(text, 0, c);
    }
    RangesPromise(text, Breaks(text), start);
  }

  /** Raw text that is blank, or that only repeats the summary, has no range; any other has one. */
  lemma RangesOnlyWhenItAdds(rawText: Option<string>, summary: string)
    ensures Ranges(rawText, summary) == [] <==>
              rawText.None? || IsBlank(rawText.value) || SameWords(rawText.value, summary)
  {
    if rawText.Some? {
      SameWhenNormalized(rawText.value, summary);
    }
    if rawText.Some? && Adds(rawText.value, summary) {
      ChunkerPromise(rawText.value, summary);
    }
  }

  /** Raw text that is not blank says more than no summary. */
  lemma AddsToNothing(text: string)
    requires !IsBlank(text)
    ensures Adds(text, "")
  {
    var i :| 0 <= i < |text| && !IsSpace(text[i]);
    var start := RunEnd(text, 0);
    if i < start {
      RunIsSpace(text, 0, i);
    }
    assert |Words(text)[0]| > 0;
    assert |Join(" ", Words(text))| > 0;
    assert |Normalized(text)| > 0;
    assert Words("") == [];
  }

  // --- How a range starts --------------------------------------------------------

  /** The untrimmed cuts of the text from `start` on; a range is a cut without its whitespace at
      the right, unless nothing is left of it. */
  function CutsFrom(text: string, breaks: seq<nat>, start: nat): seq<Range>
    requires InBounds(text, breaks) && start <= |text|
    decreases |text| - start
  {
    if start == |text| then []
    else
      var end := breaks[start];
      [Range(start, end)] +
      if end == |text| then []
      else
        NextStartBounds(text, end, start);
        CutsFrom(text, breaks, NextStart(text, end, start))
  }

  function Cuts(text: string): seq<Range> {
    BreaksInBounds(text);
    CutsFrom(text, Breaks(text), RunEnd(text, 0))
  }

  predicate StartsWord(text: string, p: nat)
    requires 0 < p < |text|
  {
    IsSpace(text[p - 1]) && !IsSpace(text[p])
  }

  /** The cut ends before whitespace, and no word starts among its last OVERLAP characters. */
  predicate LeavesBlank(text: string, cut: Range) {
    && cut.start < cut.end < |text| && IsSpace(text[cut.end])
    && forall p: nat | Max(cut.end - OVERLAP, cut.start + 1) <= p < cut.end :: !StartsWord(text, p)
  }

  lemma {:induction false} StartsOnSpace(text: string, from: nat, end: nat)
    requires 0 < from <= end < |text|
    ensures from <= WordStart(text, from, end) <= end
    ensures IsSpace(text[WordStart(text, from, end)]) <==>
            IsSpace(text[end]) && forall p | from <= p < end :: !StartsWord(text, p)
    decreases end - from
  {
    if from < end {
      assert StartsWord(text, from) ==> WordStart(text, from, end) == from;
      StartsOnSpace(text, from + 1, end);
    }
  }

  /** A cut but the first starts with whitespace just when the one before leaves it there. */
  predicate StartsAsLeft(text: string, cuts: seq<Range>, j: nat)
    requires j < |cuts| && cuts[j].start < |text|
  {
    j > 0 ==> (IsSpace(text[cuts[j].start]) <==> LeavesBlank(text, cuts[j - 1]))
  }

  lemma {:induction false} CutStart(text: string, breaks: seq<nat>, start: nat, j: nat)
    requires InBounds(text, breaks) && start <= |text| && j < |CutsFrom(text, breaks, start)|
    ensures var cuts := CutsFrom(text, breaks, start); cuts[j].start < |text| && StartsAsLeft(text, cuts, j)
    ensures j == 0 ==> CutsFrom(text, breaks, start)[j].start == start
    decreases |text| - start
  {
    var end := breaks[start];
    if j > 0 {
      NextStartBounds(text, end, start);
      var next := NextStart(text, end, start);
      NextCuts(text, breaks, start, next);
      CutStart(text, breaks, next, j - 1);
      NextStartsAsLeft(text, Range(start, end), CutsFrom(text, breaks, next), j);
    }
  }

  lemma NextStartsAsLeft(text: string, cut: Range, rest: seq<Range>, j: nat)
    requires cut.start < cut.end < |text| && 0 < j <= |rest| && rest[j - 1].start < |text|
    requires j == 1 ==> rest[0].start == NextStart(text, cut.end, cut.start)
    requires StartsAsLeft(text, rest, j - 1)
    ensures StartsAsLeft(text, [cut] + rest, j)
  {
    StartsOnSpace(text, Max(cut.end - OVERLAP, cut.start + 1), cut.end);
  }

  lemma NextCuts(text: string, breaks: seq<nat>, start: nat, next: nat)
    requires InBounds(text, breaks) && start < |text| && breaks[start] < |text|
    requires next == NextStart(text, breaks[start], start)
    requires next <= |text|
    ensures CutsFrom(text, breaks, start) == [Range(start, breaks[start])] + CutsFrom(text, breaks, next)
  {
  }

  predicate CutsIn(text: string, cuts: seq<Range>) {
    forall j | 0 <= j < |cuts| :: cuts[j].start < cuts[j].end <= |text|
  }

  function TrimAll(text: string, cuts: seq<Range>): seq<Range>
    requires CutsIn(text, cuts)
  {
    if cuts == [] then [] else Trimmed(text, cuts[0].start, cuts[0].end) + TrimAll(text, cuts[1..])
  }

  lemma TrimNext(text: string, cut: Range, rest: seq<Range>)
    requires cut.start < cut.end <= |text| && CutsIn(text, rest)
    ensures CutsIn(text, [cut] + rest)
    ensures TrimAll(text, [cut] + rest) == Trimmed(text, cut.start, cut.end) + TrimAll(text, rest)
  {
    assert ([cut] + rest)[1..] == rest;
  }

  /** The ranges are the cuts, trimmed. */
  lemma {:induction false} RangesAreCuts(text: string, breaks: seq<nat>, start: nat)
    requires InBounds(text, breaks) && start <= |text|
    ensures CutsIn(text, CutsFrom(text, breaks, start))
    ensures RangesFrom(text, breaks, start) == TrimAll(text, CutsFrom(text, breaks, start))
    decreases |text| - start
  {
    if start < |text| {
      var end, next, head, rest := Cut(text, breaks, start);
      if end < |text| {
        RangesAreCuts(text, breaks, next);
        TrimNext(text, Range(start, end), CutsFrom(text, breaks, next));
      } else {
        TrimNext(text, Range(start, end), []);
      }
    }
  }

  /** Each range starts where a cut does; the first one too, when text is there. */
  lemma {:induction false} RangeIsCut(text: string, cuts: seq<Range>, i: nat) returns (j: nat)
    requires CutsIn(text, cuts) && i < |TrimAll(text, cuts)|
    ensures j < |cuts| && cuts[j].start == TrimAll(text, cuts)[i].start
    ensures !IsSpace(text[cuts[0].start]) && i == 0 ==> j == 0
    decreases |cuts|
  {
    var head := Trimmed(text, cuts[0].start, cuts[0].end);
    if head != [] && i == 0 {
      return 0;
    }
    if head == [] {
      TrimmedIsSpace(text, cuts[0].start, cuts[0].end, cuts[0].start);
    }
    j := RangeIsCut(text, cuts[1..], i - |head|);
    j := j + 1;
  }

  /** Range i of a raw text starts with whitespace exactly when an earlier cut ended right there,
      before whitespace, with no word starting among its last OVERLAP characters; so the first never does. */
  lemma RangeStartsBlank(text: string, summary: string, i: nat) returns (j: nat)
    requires i < |Ranges(Some(text), summary)|
    ensures j < |Cuts(text)| && Cuts(text)[j].start == Ranges(Some(text), summary)[i].start < |text|
    ensures IsSpace(text[Cuts(text)[j].start]) <==> j > 0 && LeavesBlank(text, Cuts(text)[j - 1])
    ensures i == 0 ==> j == 0
  {
    BreaksInBounds(text);
    var start := RunEnd(text, 0);
    RangesAreCuts(text, Breaks(text), start);
    j := RangeIsCut(text, Cuts(text), i);
    CutStart(text, Breaks(text), start, 0);
    CutStart(text, Breaks(text), start, j);
  }

  // --- The pieces --------------------------------------------------------------

  /** The fields of a thought that are embedded. */
  datatype Content = Content(title: string, tags: seq<string>, summary: string, rawText: Option<string>)

  function Hashed(tags: seq<string>): seq<string> {
    seq(|tags|, i requires 0 <= i < |tags| => "#" + tags[i])
  }

  function HeadText(c: Content): string {
    Join("\n", [c.title] + (if c.tags == [] then [] else [Join(" ", Hashed(c.tags))]) + [c.summary])
  }

  /** The tags, each after a `#`, in one line. */
  function TagLine(tags: seq<string>): string
    requires tags != []
  {
    var last := "#" + tags[|tags| - 1];
    if |tags| == 1 then last else TagLine(tags[..|tags| - 1]) + " " + last
  }

  lemma {:induction false} TagsJoined(tags: seq<string>)
    requires tags != []
    ensures Join(" ", Hashed(tags)) == TagLine(tags)
    decreases |tags|
  {
    if |tags| > 1 {
      var before, last := tags[..|tags| - 1], tags[|tags| - 1];
      TagsJoined(before);
      JoinSnoc(" ", Hashed(before), "#" + last);
      assert Hashed(tags) == Hashed(before) + ["#" + last];
      Assoc(TagLine(before), " ", "#" + last);
    }
  }

  lemma {:induction false} JoinSnoc(separator: string, parts: seq<string>, part: string)
    requires parts != []
    ensures Join(separator, parts + [part]) == Join(separator, parts) + separator + part
    decreases |parts|
  {
    assert (parts + [part])[1..] == parts[1..] + [part];
    if |parts| > 1 {
      JoinSnoc(separator, parts[1..], part);
      Assoc(parts[0] + separator, Join(separator, parts[1..]), separator + part);
      Assoc(Join(separator, parts[1..]), separator, part);
      Assoc(Join(separator, parts), separator, part);
    }
  }

  lemma ThreeLines(a: string, b: string, c: string)
    ensures Join("\n", [a, b, c]) == a + "\n" + b + "\n" + c
  {
    assert [a, b, c][1..] == [b, c] && [b, c][1..] == [c];
    assert Join("\n", [b, c]) == b + "\n" + c;
    Assoc(b, "\n", c);
    Assoc(a + "\n", b, "\n" + c);
    Assoc(a + "\n" + b, "\n", c);
  }

  /** A head is the title, a line of tags just when there are any, and the summary, each on its line. */
  lemma HeadMeaning(c: Content)
    ensures Pieces(c)[0] == Piece(0, if c.tags == [] then c.title + "\n" + c.summary
                                     else c.title + "\n" + TagLine(c.tags) + "\n" + c.summary, None)
  {
    if c.tags == [] {
      assert [c.title] + [] + [c.summary] == [c.title, c.summary];
      assert [c.title, c.summary][1..] == [c.summary];
      assert HeadText(c) == Join("\n", [c.title, c.summary]);
    } else {
      TagsJoined(c.tags);
      var line := TagLine(c.tags);
      assert [c.title] + [line] + [c.summary] == [c.title, line, c.summary];
      assert HeadText(c) == Join("\n", [c.title, line, c.summary]);
      ThreeLines(c.title, line, c.summary);
    }
  }

  predicate InText(rawText: Option<string>, ranges: seq<Range>) {
    ranges != [] ==>
      && rawText.Some?
      && forall i | 0 <= i < |ranges| :: ranges[i].start <= ranges[i].end <= |rawText.value|
  }

  function RangePieces(rawText: Option<string>, ranges: seq<Range>): seq<Piece>
    requires InText(rawText, ranges)
  {
    seq(|ranges|, i requires 0 <= i < |ranges| =>
      Piece(i + 1, rawText.value[ranges[i].start..ranges[i].end], Some(ranges[i])))
  }

  lemma PromisedInText(text: string, ranges: seq<Range>)
    requires Promise(text, ranges)
    ensures InText(Some(text), ranges)
  {
    forall i | 0 <= i < |ranges|
      ensures ranges[i].start <= ranges[i].end <= |text|
    {
      assert ranges[i] in ranges;
      assert WellCut(text, ranges[i]);
    }
  }

  lemma RangesInText(rawText: Option<string>, summary: string)
    ensures InText(rawText, Ranges(rawText, summary))
    ensures Ranges(rawText, summary) != [] ==> rawText.Some? && Promise(rawText.value, Ranges(rawText, summary))
  {
    if rawText.Some? && Adds(rawText.value, summary) {
      ChunkerPromise(rawText.value, summary);
      PromisedInText(rawText.value, Ranges(rawText, summary));
    }
  }

  /** The thought's pieces, numbered from the head. */
  function Pieces(c: Content): seq<Piece> {
    RangesInText(c.rawText, c.summary);
    [Piece(0, HeadText(c), None)] + RangePieces(c.rawText, Ranges(c.rawText, c.summary))
  }

  method CollectPieces(c: Content) returns (result: seq<Piece>)
    ensures result == Pieces(c)
  {
    RangesInText(c.rawText, c.summary);
    var ranges := ChunkRawText(c.rawText, c.summary);
    result := NumberPieces(Piece(0, HeadText(c), None), c.rawText, ranges);
  }

  method NumberPieces(head: Piece, rawText: Option<string>, ranges: seq<Range>) returns (result: seq<Piece>)
    requires InText(rawText, ranges)
    ensures result == [head] + RangePieces(rawText, ranges)
  {
    result := [head];
    for number := 0 to |ranges|
      invariant result == [head] + RangePieces(rawText, ranges)[..number]
    {
      var r := ranges[number];
      result := result + [Piece(number + 1, rawText.value[r.start..r.end], Some(r))];
    }
  }

  /** Piece i of a thought: the head, or a range of the raw text and the text there. */
  predicate PointsAtText(rawText: Option<string>, piece: Piece, i: nat) {
    && piece.chunk == i
    && (piece.range.None? <==> i == 0)
    && (i > 0 ==>
          && rawText.Some?
          && WellCut(rawText.value, piece.range.value)
          && piece.text == rawText.value[piece.range.value.start..piece.range.value.end])
  }

  lemma RangePieceAt(rawText: Option<string>, ranges: seq<Range>, i: nat)
    requires i < |ranges| && rawText.Some? && Promise(rawText.value, ranges) && InText(rawText, ranges)
    ensures PointsAtText(rawText, RangePieces(rawText, ranges)[i], i + 1)
  {
    assert ranges[i] in ranges;
  }

  lemma PieceAt(head: Piece, rawText: Option<string>, ranges: seq<Range>, i: nat)
    requires head.chunk == 0 && head.range == None && InText(rawText, ranges) && i <= |ranges|
    requires ranges != [] ==> rawText.Some? && Promise(rawText.value, ranges)
    ensures PointsAtText(rawText, ([head] + RangePieces(rawText, ranges))[i], i)
  {
    if i > 0 {
      RangePieceAt(rawText, ranges, i - 1);
    }
  }

  /** Pieces are numbered from the head on; each later one points at its own text. */
  lemma PiecesPointAtText(c: Content, i: nat)
    requires i < |Pieces(c)|
    ensures PointsAtText(c.rawText, Pieces(c)[i], i)
  {
    RangesInText(c.rawText, c.summary);
    PieceAt(Piece(0, HeadText(c), None), c.rawText, Ranges(c.rawText, c.summary), i);
  }

  /** New tags change the head only. */
  lemma TagsChangeHeadOnly(c: Content, tags: seq<string>)
    ensures |Pieces(c.(tags := tags))| == |Pieces(c)| >= 1
    ensures forall i | 1 <= i < |Pieces(c)| :: Pieces(c.(tags := tags))[i] == Pieces(c)[i]
  {
  }

  // --- A range that starts with whitespace -------------------------------------

  /** One long word, a space, and another: 1,101 characters. */
  function LongWords(): string {
    seq(1101, i => if i == 900 then ' ' else 'x')
  }

  lemma OnlyBreak(w: string, space: nat, p: nat)
    requires space < |w| && w[space] == ' ' && forall i | 0 <= i < |w| && i != space :: w[i] == 'x'
    ensures Kind(w, p) == if p == space then 1 else 0
  {
    KnownSpaces();
  }

  lemma LongWordsBreak()
    ensures BestBreak(LongWords(), 0) == 900
  {
    var text := LongWords();
    KnownSpaces();
    BestBreakIsBest(text, 0);
    OnlyBreak(text[MIN_BREAK..MAX_CHUNK], 500, 500);
    OnlyBreak(text[MIN_BREAK..MAX_CHUNK], 500, BestBreak(text, 0) - MIN_BREAK);
  }

  lemma LongWordsCut(text: string, breaks: seq<nat>)
    requires text == LongWords() && InBounds(text, breaks) && breaks[0] == 900
    ensures |RangesFrom(text, breaks, 0)| == 2
    ensures RangesFrom(text, breaks, 0)[1].start == 900 && IsSpace(text[900])
  {
    KnownSpaces();
    StartsOnSpace(text, 800, 900);
    var end, next, head, rest := Cut(text, breaks, 0);
    var end', next', head', rest' := Cut(text, breaks, 900);
    assert head == [Range(0, 900)] && head' == [Range(900, 1101)];
  }

  /** The edges are meant to be trimmed so that each range points at text, but a
      word longer than OVERLAP before the break leaves the next range on the space. */
  lemma RangeMayStartBlank()
    ensures var ranges := Ranges(Some(LongWords()), "");
            |ranges| == 2 && ranges[1].start == 900 && IsSpace(LongWords()[900])
  {
    var text := LongWords();
    KnownSpaces();
    assert !IsSpace(text[0]);
    AddsToNothing(text);
    BreaksInBounds(text);
    LongWordsBreak();
    LongWordsCut(text, Breaks(text));
  }
}
