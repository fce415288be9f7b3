/** Which of the user's messages a proposal keeps as its raw text. */
module RawText {
  import opened Wrappers
  import opened Text
  import opened Commands
  import opened Messages

  const MAX_RAW_TEXT: nat := 20000

  /** What the user said at a position, without the command. */
  datatype Said = Said(position: nat, text: string)

  datatype RawText = RawText(text: string, from: nat, to: nat)

  /** The user messages of the first n at or after `start`. Compacted ones count. */
  function Discussion(rows: seq<Message>, start: nat, n: nat): seq<Said>
    requires n <= |rows|
  {
    if n == 0 then []
    else Discussion(rows, start, n - 1) + (if Says(rows, start, n - 1) then [SaidAt(rows, n - 1)] else [])
  }

  predicate Says(rows: seq<Message>, start: nat, i: nat) {
    start <= i < |rows| && rows[i].role == User
  }

  function SaidAt(rows: seq<Message>, i: nat): Said
    requires i < |rows|
  {
    Said(i, TextForModel(OrEmpty(rows[i].content)))
  }

  function Texts(said: seq<Said>): (texts: seq<string>)
    ensures |texts| == |said| && forall i | 0 <= i < |said| :: texts[i] == said[i].text
  {
    seq(|said|, i requires 0 <= i < |said| => said[i].text)
  }

  /** The messages as one text. */
  function Joined(said: seq<Said>): string {
    Join("\n\n", Texts(said))
  }

  /** The first message that is kept, given that those from k on fit in `length`. */
  function KeptFrom(said: seq<Said>, k: nat, length: nat): (first: nat)
    requires k < |said|
    ensures first <= k
  {
    if k == 0 || length + |said[k - 1].text| + 2 > MAX_RAW_TEXT then k
    else KeptFrom(said, k - 1, length + |said[k - 1].text| + 2)
  }

  function FitRawText(said: seq<Said>): RawText
    requires said != []
  {
    var last := said[|said| - 1];
    if |last.text| > MAX_RAW_TEXT then RawText(last.text[..MAX_RAW_TEXT], last.position, last.position)
    else
      var first := KeptFrom(said, |said| - 1, |last.text|);
      RawText(Joined(said[first..]), said[first].position, last.position)
  }

  lemma JoinedStep(said: seq<Said>, k: nat)
    requires k < |said|
    ensures Joined(said[k..]) == if k + 1 == |said| then said[k].text else said[k].text + "\n\n" + Joined(said[k + 1..])
  {
    assert Texts(said[k..])[1..] == Texts(said[k + 1..]);
  }

  /** From the last message back, as long as the next one fits. */
  method FitMessages(said: seq<Said>) returns (raw: RawText)
    requires said != []
    ensures raw == FitRawText(said)
  {
    var last := said[|said| - 1];
    if |last.text| > MAX_RAW_TEXT {
      return RawText(last.text[..MAX_RAW_TEXT], last.position, last.position);
    }
    var k: nat, kept: seq<Said>, length: nat := |said|, [], 0;
    while k > 0
      invariant 0 <= k <= |said| && kept == said[k..]
      invariant k == |said| ==> length == 0
      invariant k < |said| ==> KeptFrom(said, k, length) == KeptFrom(said, |said| - 1, |last.text|)
    {
      var added := |said[k - 1].text| + if kept != [] then 2 else 0;
      if length + added > MAX_RAW_TEXT {
        break;
      }
      k := k - 1;
      kept := [said[k]] + kept;
      length := length + added;
    }
    raw := RawText(Joined(kept), kept[0].position, last.position);
  }

  /** The length of the messages from k on as one text. */
  function Size(said: seq<Said>, k: nat): nat
    requires k < |said|
    decreases |said| - k
  {
    |said[k].text| + if k + 1 == |said| then 0 else 2 + Size(said, k + 1)
  }

  lemma {:induction false} SizeMeaning(said: seq<Said>, k: nat)
    requires k < |said|
    ensures Size(said, k) == |Joined(said[k..])|
    decreases |said| - k
  {
    JoinedStep(said, k);
    if k + 1 < |said| {
      SizeMeaning(said, k + 1);
    }
  }

  lemma {:induction false} KeptFits(said: seq<Said>, k: nat, length: nat)
    requires k < |said| && length == Size(said, k) <= MAX_RAW_TEXT
    ensures Size(said, KeptFrom(said, k, length)) <= MAX_RAW_TEXT
    ensures KeptFrom(said, k, length) > 0 ==> Size(said, KeptFrom(said, k, length) - 1) > MAX_RAW_TEXT
  {
    if k > 0 && length + |said[k - 1].text| + 2 <= MAX_RAW_TEXT {
      KeptFits(said, k - 1, length + |said[k - 1].text| + 2);
    }
  }

  lemma {:induction false} LongerFromEarlier(said: seq<Said>, j: nat, k: nat)
    requires j <= k < |said|
    ensures Size(said, j) >= Size(said, k)
    decreases k - j
  {
    if j < k {
      LongerFromEarlier(said, j + 1, k);
    }
  }

  /** The raw text never exceeds the limit. It is the whole messages from `from` to the last, and no
      longer run of whole messages fits; or, when the last message alone is too long, its start. */
  lemma FittedMeaning(said: seq<Said>) returns (first: nat)
    requires said != []
    ensures first < |said| && |FitRawText(said).text| <= MAX_RAW_TEXT
    ensures FitRawText(said).to == said[|said| - 1].position && FitRawText(said).from == said[first].position
    ensures |said[|said| - 1].text| > MAX_RAW_TEXT ==>
              first == |said| - 1 && FitRawText(said).text == said[first].text[..MAX_RAW_TEXT]
    ensures |said[|said| - 1].text| <= MAX_RAW_TEXT ==>
              && FitRawText(said).text == Joined(said[first..])
              && forall j | 0 <= j < first :: |Joined(said[j..])| > MAX_RAW_TEXT
  {
    var last := |said| - 1;
    first := last;
    if |said[last].text| <= MAX_RAW_TEXT {
      first := KeptFrom(said, last, |said[last].text|);
      KeptFits(said, last, |said[last].text|);
      SizeMeaning(said, first);
      forall j | 0 <= j < first
        ensures |Joined(said[j..])| > MAX_RAW_TEXT
      {
        LongerFromEarlier(said, j, first - 1);
        SizeMeaning(said, j);
      }
    }
  }

  // --- Which messages ---------------------------------------------------------------

  predicate Increasing(said: seq<Said>) {
    forall j, k | 0 <= j < k < |said| :: said[j].position < said[k].position
  }

  lemma {:induction false} DiscussionHolds(rows: seq<Message>, start: nat, n: nat)
    requires n <= |rows|
    ensures var all := Discussion(rows, start, n);
            && Increasing(all)
            && forall k | 0 <= k < |all| ::
              all[k].position < n && Says(rows, start, all[k].position) && all[k] == SaidAt(rows, all[k].position)
  {
    if n > 0 {
      DiscussionHolds(rows, start, n - 1);
    }
  }

  lemma {:induction false} DiscussionEnds(rows: seq<Message>, start: nat, n: nat, i: nat)
    requires i < n <= |rows| && Says(rows, start, i)
    ensures var all := Discussion(rows, start, n); all != [] && i <= all[|all| - 1].position
  {
    DiscussionHolds(rows, start, n);
    if i < n - 1 {
      DiscussionEnds(rows, start, n - 1, i);
    }
  }

  predicate HasUser(rows: seq<Message>) {
    exists i | 0 <= i < |rows| :: rows[i].role == User
  }

  /** The last user message. */
  function LastSaid(rows: seq<Message>): (said: seq<Said>)
    requires HasUser(rows)
    ensures |said| == 1
  {
    UserFound(rows);
    var all := Discussion(rows, 0, |rows|);
    [all[|all| - 1]]
  }

  lemma UserFound(rows: seq<Message>)
    requires HasUser(rows)
    ensures Discussion(rows, 0, |rows|) != []
  {
    var i: nat :| i < |rows| && rows[i].role == User;
    DiscussionEnds(rows, 0, |rows|, i);
  }

  /** The messages a proposal made now keeps the raw text of: for a push, the last one;
      else the discussion from `start`, or the last message when nothing was said since. */
  function Kept(rows: seq<Message>, start: nat, push: bool): (said: seq<Said>)
    requires HasUser(rows)
    ensures said != []
  {
    var discussion := Discussion(rows, start, |rows|);
    if push || discussion == [] then LastSaid(rows) else discussion
  }

  function RawTextFor(rows: seq<Message>, start: nat, push: bool): RawText
    requires HasUser(rows)
  {
    FitRawText(Kept(rows, start, push))
  }

  // --- What is kept, said of the rows -------------------------------------------------

  /** What a model is given of the user's messages among the first n, from a position on, in order. */
  function UserTexts(rows: seq<Message>, from: nat, n: nat): seq<string>
    requires n <= |rows|
  {
    if n <= from then []
    else
      UserTexts(rows, from, n - 1)
      + if rows[n - 1].role == User then [TextForModel(OrEmpty(rows[n - 1].content))] else []
  }

  /** The user's messages from a position on, as one text. */
  function TextFrom(rows: seq<Message>, from: nat): string {
    Join("\n\n", UserTexts(rows, from, |rows|))
  }

  predicate IsLastUser(rows: seq<Message>, i: nat) {
    && i < |rows| && rows[i].role == User
    && forall j | i < j < |rows| :: rows[j].role != User
  }

  /** The text of all user messages from `from` on, or the start of the last one alone when that is
      too long. It is the last one for a push, and when nothing was said from `start` on; else a
      message said since is left out only because the text from it on would be too long. */
  predicate KeepsText(rows: seq<Message>, start: nat, push: bool, raw: RawText) {
    && IsLastUser(rows, raw.to) && raw.from <= raw.to && rows[raw.from].role == User
    && var last := TextForModel(OrEmpty(rows[raw.to].content));
    && (if |last| > MAX_RAW_TEXT then raw.from == raw.to && raw.text == last[..MAX_RAW_TEXT]
        else raw.text == TextFrom(rows, raw.from) && |raw.text| <= MAX_RAW_TEXT)
    && (if push || raw.to < start then raw.from == raw.to
        else start <= raw.from
             && (|last| <= MAX_RAW_TEXT ==>
                   forall i | start <= i < raw.from && rows[i].role == User :: |TextFrom(rows, i)| > MAX_RAW_TEXT))
  }

  lemma TextsSnoc(said: seq<Said>, x: Said)
    ensures Texts(said + [x]) == Texts(said) + [x.text]
  {
  }

  lemma {:induction false} DiscussionTexts(rows: seq<Message>, start: nat, n: nat)
    requires n <= |rows|
    ensures Texts(Discussion(rows, start, n)) == UserTexts(rows, start, n)
  {
    if n > 0 {
      DiscussionTexts(rows, start, n - 1);
      var before := Discussion(rows, start, n - 1);
      if Says(rows, start, n - 1) {
        TextsSnoc(before, SaidAt(rows, n - 1));
      } else {
        Assoc(before, [], []);
        Assoc(UserTexts(rows, start, n - 1), [], []);
      }
    }
  }

  lemma {:induction false} EarlierSaid(rows: seq<Message>, start: nat, n: nat)
    requires n <= |rows| && n <= start
    ensures Discussion(rows, start, n) == []
  {
    if n > 0 {
      EarlierSaid(rows, start, n - 1);
    }
  }

  lemma SuffixSnoc<T>(s: seq<T>, x: T, k: nat)
    requires k <= |s|
    ensures (s + [x])[k..] == s[k..] + [x]
  {
  }

  /** From one of its messages on, a discussion is that from the message's position. */
  lemma {:induction false} DiscussionFrom(rows: seq<Message>, start: nat, n: nat, k: nat, p: nat)
    requires n <= |rows| && k < |Discussion(rows, start, n)| && Discussion(rows, start, n)[k].position == p
    ensures Discussion(rows, start, n)[k..] == Discussion(rows, p, n)
  {
    var before := Discussion(rows, start, n - 1);
    DiscussionHolds(rows, start, n - 1);
    if !Says(rows, start, n - 1) {
      Assoc(before, [], []);
      DiscussionFrom(rows, start, n - 1, k, p);
      Assoc(Discussion(rows, p, n - 1), [], []);
    } else {
      SuffixSnoc(before, SaidAt(rows, n - 1), k);
      if k == |before| {
        EarlierSaid(rows, p, n - 1);
      } else {
        DiscussionFrom(rows, start, n - 1, k, p);
      }
    }
  }

  lemma {:induction false} DiscussionHas(rows: seq<Message>, start: nat, n: nat, i: nat) returns (k: nat)
    requires i < n <= |rows| && Says(rows, start, i)
    ensures k < |Discussion(rows, start, n)| && Discussion(rows, start, n)[k].position == i
  {
    if i == n - 1 {
      k := |Discussion(rows, start, n)| - 1;
    } else {
      k := DiscussionHas(rows, start, n - 1, i);
    }
  }

  lemma JoinedFrom(rows: seq<Message>, start: nat, k: nat)
    requires k < |Discussion(rows, start, |rows|)|
    ensures Joined(Discussion(rows, start, |rows|)[k..]) == TextFrom(rows, Discussion(rows, start, |rows|)[k].position)
  {
    DiscussionFrom(rows, start, |rows|, k, Discussion(rows, start, |rows|)[k].position);
    DiscussionTexts(rows, Discussion(rows, start, |rows|)[k].position, |rows|);
  }

  lemma LastOfDiscussion(rows: seq<Message>, start: nat)
    requires Discussion(rows, start, |rows|) != []
    ensures var said := Discussion(rows, start, |rows|);
            IsLastUser(rows, said[|said| - 1].position) && start <= said[|said| - 1].position
              && said[|said| - 1].text == TextForModel(OrEmpty(rows[said[|said| - 1].position].content))
  {
    var said := Discussion(rows, start, |rows|);
    DiscussionHolds(rows, start, |rows|);
    NoneAfter(rows, start, said[|said| - 1].position);
  }

  lemma NoneAfter(rows: seq<Message>, start: nat, last: nat)
    requires var said := Discussion(rows, start, |rows|); said != [] && said[|said| - 1].position == last
    requires start <= last
    ensures forall j | last < j < |rows| :: rows[j].role != User
  {
    forall j | last < j < |rows|
      ensures rows[j].role != User
    {
      if rows[j].role == User {
        DiscussionEnds(rows, start, |rows|, j);
        assert false;
      }
    }
  }

  /** The discussion from `start` on, fitted, keeps what it should. */
  lemma DiscussionKept(rows: seq<Message>, start: nat)
    requires Discussion(rows, start, |rows|) != []
    ensures KeepsText(rows, start, false, FitRawText(Discussion(rows, start, |rows|)))
  {
    var said := Discussion(rows, start, |rows|);
    var raw := FitRawText(said);
    LastOfDiscussion(rows, start);
    DiscussionHolds(rows, start, |rows|);
    var first := FittedMeaning(said);
    JoinedFrom(rows, start, first);
    if first < |said| - 1 {
      assert said[first].position < said[|said| - 1].position;
    }
    assert Says(rows, start, said[first].position);
    if |said[|said| - 1].text| <= MAX_RAW_TEXT {
      forall i | start <= i < raw.from && rows[i].role == User
        ensures |TextFrom(rows, i)| > MAX_RAW_TEXT
      {
        EarlierIsTooMuch(rows, start, said, first, i);
      }
    }
  }

  lemma EarlierIn(said: seq<Said>, j: nat, k: nat)
    requires Increasing(said) && j < |said| && k < |said| && said[j].position < said[k].position
    ensures j < k
  {
  }

  lemma EarlierIsTooMuch(rows: seq<Message>, start: nat, said: seq<Said>, first: nat, i: nat)
    requires said == Discussion(rows, start, |rows|) && first < |said| && Increasing(said)
    requires i < |rows| && Says(rows, start, i) && i < said[first].position
    requires forall j | 0 <= j < first :: |Joined(said[j..])| > MAX_RAW_TEXT
    ensures |TextFrom(rows, i)| > MAX_RAW_TEXT
  {
    var k := DiscussionHas(rows, start, |rows|, i);
    EarlierIn(said, k, first);
    JoinedFrom(rows, start, k);
  }

  lemma AllEarlier(rows: seq<Message>, start: nat, i: nat)
    requires Discussion(rows, start, |rows|) == [] && i < |rows| && rows[i].role == User
    ensures i < start
  {
    if start <= i {
      DiscussionEnds(rows, start, |rows|, i);
      assert false;
    }
  }

  lemma OneFitted(x: Said)
    ensures Joined([x]) == x.text
    ensures FitRawText([x]) ==
            RawText(if |x.text| > MAX_RAW_TEXT then x.text[..MAX_RAW_TEXT] else x.text, x.position, x.position)
  {
    assert [x][0..] == [x];
    JoinedStep([x], 0);
  }

  lemma LastSaidText(rows: seq<Message>)
    requires HasUser(rows)
    ensures var x := LastSaid(rows)[0];
            && IsLastUser(rows, x.position)
            && x.text == TextForModel(OrEmpty(rows[x.position].content)) == TextFrom(rows, x.position)
  {
    UserFound(rows);
    var all := Discussion(rows, 0, |rows|);
    LastOfDiscussion(rows, 0);
    JoinedFrom(rows, 0, |all| - 1);
    assert all[|all| - 1..] == [all[|all| - 1]];
    OneFitted(all[|all| - 1]);
  }

  /** One message alone, fitted. */
  lemma LastKept(rows: seq<Message>, start: nat, push: bool)
    requires HasUser(rows) && (push || Discussion(rows, start, |rows|) == [])
    ensures KeepsText(rows, start, push, FitRawText(LastSaid(rows)))
  {
    var x := LastSaid(rows)[0];
    LastSaidText(rows);
    assert LastSaid(rows) == [x];
    OneFitted(x);
    if !push {
      AllEarlier(rows, start, x.position);
    }
  }

  /** What a proposal made now keeps of the user's messages, which these conditions alone determine. */
  lemma RawTextMeaning(rows: seq<Message>, start: nat, push: bool)
    requires HasUser(rows)
    ensures KeepsText(rows, start, push, RawTextFor(rows, start, push))
  {
    if push || Discussion(rows, start, |rows|) == [] {
      LastKept(rows, start, push);
    } else {
      DiscussionKept(rows, start);
    }
  }

  /** The raw text ends with the last user message, and starts with a user message; when the user
      wrote anything from `start` on, it starts there or later. */
  lemma RawTextPlaced(rows: seq<Message>, start: nat, push: bool)
    requires HasUser(rows)
    ensures var raw := RawTextFor(rows, start, push);
            && |raw.text| <= MAX_RAW_TEXT
            && raw.from <= raw.to && Says(rows, 0, raw.from) && Says(rows, 0, raw.to)
            && (forall i: nat | Says(rows, 0, i) :: i <= raw.to)
            && ((exists i: nat :: Says(rows, start, i)) ==> start <= raw.from)
  {
    RawTextMeaning(rows, start, push);
    var raw := RawTextFor(rows, start, push);
    forall i: nat | Says(rows, 0, i)
      ensures i <= raw.to
    {
    }
    if i: nat :| Says(rows, start, i) {
      assert Says(rows, 0, i);
    }
  }
}
