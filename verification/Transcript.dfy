/** A conversation's stored messages, the summary drafts issued for them, and what
    accepted summaries replaced. */
module Transcript {
  import opened Wrappers
  import opened Messages

  /** A summary draft: the last message it replaces, and every message that its text was
      written from, directly or through an earlier summary. */
  datatype Draft = Draft(through: nat, covered: set<nat>)

  /** Rows are only ever added. The columns that change beside them are kept apart: the error codes
      and the compacted flags. `drafts` are the drafts issued so far, and `origins` says which one
      each summary row was accepted from. */
  datatype Transcript = Transcript(
    rows: seq<Message>,
    errors: map<nat, string>,
    compacted: set<nat>,
    drafts: seq<Draft>,
    origins: map<nat, nat>)

  function Stored(t: Transcript, row: Message): Transcript {
    t.(rows := t.rows + [row])
  }

  function WithError(t: Transcript, i: nat, code: string): Transcript {
    t.(errors := t.errors[i := code])
  }

  // --- The plan of a compaction ---------------------------------------------------

  predicate IsLive(rows: seq<Message>, compacted: set<nat>, i: nat) {
    i < |rows| && i !in compacted && rows[i].role != Summary
  }

  /** The messages, of the first n, that are not compacted and not summaries. */
  function Live(rows: seq<Message>, compacted: set<nat>, n: nat): (live: seq<nat>)
    requires n <= |rows|
  {
    if n == 0 then []
    else Live(rows, compacted, n - 1) + (if IsLive(rows, compacted, n - 1) then [n - 1] else [])
  }

  lemma {:induction false} LiveMeaning(rows: seq<Message>, compacted: set<nat>, n: nat)
    requires n <= |rows|
    ensures forall i: nat :: i in Live(rows, compacted, n) <==> i < n && IsLive(rows, compacted, i)
    ensures forall x, y | 0 <= x < y < |Live(rows, compacted, n)| ::
              Live(rows, compacted, n)[x] < Live(rows, compacted, n)[y]
  {
    if n > 0 {
      LiveMeaning(rows, compacted, n - 1);
      var before := Live(rows, compacted, n - 1);
      forall x | 0 <= x < |before|
        ensures before[x] < n - 1
      {
        assert before[x] in before;
      }
    }
  }

  predicate InRows(live: seq<nat>, rows: seq<Message>) {
    forall x | 0 <= x < |live| :: live[x] < |rows|
  }

  predicate StartsWithResult(rows: seq<Message>, live: seq<nat>, cut: nat)
    requires InRows(live, rows)
  {
    0 < cut < |live| && rows[live[cut]].role == Tool
  }

  /** Where the kept part starts: past the tool results it would start with. */
  function Cut(rows: seq<Message>, live: seq<nat>, cut: nat): (end: nat)
    requires cut <= |live| && InRows(live, rows)
    ensures cut <= end <= |live|
    decreases |live| - cut
  {
    if StartsWithResult(rows, live, cut) then Cut(rows, live, cut + 1) else cut
  }

  lemma {:induction false} CutMeaning(rows: seq<Message>, live: seq<nat>, cut: nat)
    requires cut <= |live| && InRows(live, rows)
    ensures !StartsWithResult(rows, live, Cut(rows, live, cut))
    ensures forall x | cut <= x < Cut(rows, live, cut) :: rows[live[x]].role == Tool
    decreases |live| - cut
  {
    if StartsWithResult(rows, live, cut) {
      CutMeaning(rows, live, cut + 1);
    }
  }

  /** All the messages that are not compacted and not summaries. */
  function LiveRows(rows: seq<Message>, compacted: set<nat>): (live: seq<nat>)
    ensures InRows(live, rows)
  {
    LiveMeaning(rows, compacted, |rows|);
    var live := Live(rows, compacted, |rows|);
    assert forall x | 0 <= x < |live| :: live[x] in live;
    live
  }

  /** How many of them a summary made now replaces. */
  function CutFor(rows: seq<Message>, compacted: set<nat>, keepRecent: nat): (cut: nat)
    ensures cut <= |LiveRows(rows, compacted)|
  {
    var live := LiveRows(rows, compacted);
    Cut(rows, live, if |live| > keepRecent then |live| - keepRecent else 0)
  }

  function Replaced(rows: seq<Message>, compacted: set<nat>, keepRecent: nat): seq<nat> {
    LiveRows(rows, compacted)[..CutFor(rows, compacted, keepRecent)]
  }

  /** The live rows in order, and the latest summary. */
  method Gather(rows: seq<Message>, compacted: set<nat>) returns (live: seq<nat>, summary: Option<nat>)
    ensures live == LiveRows(rows, compacted)
    ensures summary == LatestSummary(rows, compacted, |rows|)
  {
    live, summary := [], None;
    for n := 0 to |rows|
      invariant live == Live(rows, compacted, n)
      invariant summary == LatestSummary(rows, compacted, n)
    {
      if n !in compacted {
        if rows[n].role == Summary {
          summary := Some(n);
        } else {
          live := live + [n];
        }
      }
    }
  }

  method PlanCompaction(rows: seq<Message>, compacted: set<nat>, keepRecent: nat)
      returns (summary: Option<nat>, replaced: seq<nat>)
    ensures summary == LatestSummary(rows, compacted, |rows|)
    ensures replaced == Replaced(rows, compacted, keepRecent)
  {
    var live;
    live, summary := Gather(rows, compacted);
    var cut := if |live| > keepRecent then |live| - keepRecent else 0;
    while cut != 0 && cut < |live| && rows[live[cut]].role == Tool
      invariant cut <= |live|
      invariant Cut(rows, live, cut) == CutFor(rows, compacted, keepRecent)
      decreases |live| - cut
    {
      cut := cut + 1;
    }
    replaced := live[..cut];
  }

  lemma InPrefix(live: seq<nat>, k: nat, i: nat)
    requires k <= |live|
    ensures i in live[..k] ==> i in live
  {
  }

  lemma CutForMeaning(rows: seq<Message>, compacted: set<nat>, keepRecent: nat)
    ensures !StartsWithResult(rows, LiveRows(rows, compacted), CutFor(rows, compacted, keepRecent))
  {
    var live := LiveRows(rows, compacted);
    CutMeaning(rows, live, if |live| > keepRecent then |live| - keepRecent else 0);
  }

  /** The plan replaces every message up to its last one that is not replaced yet, and the part it
      keeps does not start with a tool result. */
  lemma ReplacedMeaning(rows: seq<Message>, compacted: set<nat>, keepRecent: nat)
    ensures forall i: nat | i in Replaced(rows, compacted, keepRecent) :: IsLive(rows, compacted, i)
    ensures var replaced := Replaced(rows, compacted, keepRecent);
            replaced != [] ==>
              var through := replaced[|replaced| - 1];
              && IsLive(rows, compacted, through)
              && (forall i: nat | IsLive(rows, compacted, i) && i <= through :: i in replaced)
              && (IsLive(rows, compacted, through + 1) ==> rows[through + 1].role != Tool)
  {
    var cut := CutFor(rows, compacted, keepRecent);
    CutForMeaning(rows, compacted, keepRecent);
    PrefixMeaning(rows, compacted, LiveRows(rows, compacted), cut);
  }

  lemma PrefixMeaning(rows: seq<Message>, compacted: set<nat>, live: seq<nat>, cut: nat)
    requires live == LiveRows(rows, compacted) && cut <= |live| && !StartsWithResult(rows, live, cut)
    ensures forall i: nat | i in live[..cut] :: IsLive(rows, compacted, i)
    ensures 0 < cut ==>
              var through := live[cut - 1];
              && IsLive(rows, compacted, through)
              && (forall i: nat | IsLive(rows, compacted, i) && i <= through :: i in live[..cut])
              && (IsLive(rows, compacted, through + 1) ==> rows[through + 1].role != Tool)
  {
    LiveMeaning(rows, compacted, |rows|);
    forall i: nat | i in live[..cut]
      ensures IsLive(rows, compacted, i)
    {
      InPrefix(live, cut, i);
    }
    if 0 < cut {
      assert live[cut - 1] in live;
      ThroughMeaning(rows, compacted, live, cut);
    }
  }

  lemma ThroughMeaning(rows: seq<Message>, compacted: set<nat>, live: seq<nat>, cut: nat)
    requires 0 < cut <= |live| && InRows(live, rows) && !StartsWithResult(rows, live, cut)
    requires forall i: nat :: i in live <==> i < |rows| && IsLive(rows, compacted, i)
    requires forall x, y | 0 <= x < y < |live| :: live[x] < live[y]
    ensures forall i: nat | IsLive(rows, compacted, i) && i <= live[cut - 1] :: i in live[..cut]
    ensures IsLive(rows, compacted, live[cut - 1] + 1) ==> rows[live[cut - 1] + 1].role != Tool
  {
    var through := live[cut - 1];
    forall i: nat | IsLive(rows, compacted, i) && i <= through
      ensures i in live[..cut]
    {
      assert i in live;
      var x: nat :| x < |live| && live[x] == i;
      assert x < cut;
      assert live[..cut][x] == i;
    }
    if IsLive(rows, compacted, through + 1) {
      assert through + 1 in live;
      var x: nat :| x < |live| && live[x] == through + 1;
      assert cut <= x;
      assert x == cut;
    }
  }

  /** It keeps at most as many messages as asked, fewer only to leave no result at the start, and
      replaces nothing just when there are no more messages than that. */
  lemma KeptMeaning(rows: seq<Message>, compacted: set<nat>, keepRecent: nat)
    ensures var live, cut := LiveRows(rows, compacted), CutFor(rows, compacted, keepRecent);
            && |live| - cut <= keepRecent
            && (|live| <= keepRecent <==> Replaced(rows, compacted, keepRecent) == [])
            && (forall x: nat | |live| - keepRecent <= x < cut :: rows[live[x]].role == Tool)
  {
    var live := LiveRows(rows, compacted);
    CutMeaning(rows, live, if |live| > keepRecent then |live| - keepRecent else 0);
  }

  // --- Drafts and acceptance ---------------------------------------------------------

  /** What the draft's text is written from besides the messages it replaces: what the latest summary covers. */
  function Inherited(t: Transcript): set<nat> {
    match LatestSummary(t.rows, t.compacted, |t.rows|)
    case None => {}
    case Some(s) => if s in t.origins && t.origins[s] < |t.drafts| then t.drafts[t.origins[s]].covered else {}
  }

  /** The draft of a summary made now; none when it would replace nothing. */
  function DraftNow(t: Transcript, keepRecent: nat): Option<Draft> {
    var replaced := Replaced(t.rows, t.compacted, keepRecent);
    if replaced == [] then None
    else Some(Draft(replaced[|replaced| - 1], (set i | i in replaced) + Inherited(t)))
  }

  function Issued(t: Transcript, draft: Draft): Transcript {
    t.(drafts := t.drafts + [draft])
  }

  /** The messages that a summary through this position would replace now. */
  function ReplacedThrough(rows: seq<Message>, compacted: set<nat>, through: nat): set<nat> {
    set i: nat | i < |rows| && IsLive(rows, compacted, i) && i <= through
  }

  function OpenSummaries(rows: seq<Message>, compacted: set<nat>): set<nat> {
    set i: nat | i < |rows| && rows[i].role == Summary && i !in compacted
  }

  function SummaryRow(text: string): Message {
    Message(Summary, Some(text), [], "", Complete, NoDetails)
  }

  /** Accepting a draft, as the user edited it; refused when it would replace nothing. */
  function Accepted(t: Transcript, d: nat, text: string): Option<Transcript>
    requires d < |t.drafts|
  {
    var replaced := ReplacedThrough(t.rows, t.compacted, t.drafts[d].through);
    if replaced == {} then None
    else Some(t.(rows := t.rows + [SummaryRow(text)],
                 compacted := t.compacted + replaced + OpenSummaries(t.rows, t.compacted),
                 origins := t.origins[|t.rows| := d]))
  }

  // --- Tool rows follow the row with their call ---------------------------------------

  /** The calls that a tool row at n may answer. */
  function OpenRows(rows: seq<Message>, n: nat): seq<Call>
    requires n <= |rows|
  {
    if n == 0 then []
    else
      match rows[n - 1].role
      case Assistant => rows[n - 1].calls
      case Tool => OpenRows(rows, n - 1)
      case _ => []
  }

  /** A tool row answers an open call. */
  predicate RowAnswers(rows: seq<Message>, i: nat)
    requires i < |rows|
  {
    rows[i].role == Tool ==> HasCall(OpenRows(rows, i), rows[i].callId)
  }

  predicate RowsGrouped(rows: seq<Message>) {
    forall i | 0 <= i < |rows| :: RowAnswers(rows, i)
  }

  lemma {:induction false} OpenRowsFrame(rows: seq<Message>, row: Message, n: nat)
    requires n <= |rows|
    ensures OpenRows(rows + [row], n) == OpenRows(rows, n)
  {
    if n > 0 {
      OpenRowsFrame(rows, row, n - 1);
    }
  }

  lemma RowsGroupedAppend(rows: seq<Message>, row: Message)
    requires RowsGrouped(rows)
    requires row.role == Tool ==> HasCall(OpenRows(rows, |rows|), row.callId)
    ensures RowsGrouped(rows + [row])
  {
    forall i | 0 <= i < |rows + [row]|
      ensures RowAnswers(rows + [row], i)
    {
      assert i < |rows| ==> RowAnswers(rows, i);
      OpenRowsFrame(rows, row, i);
    }
  }

  /** No message is replaced while a result of its call is kept. */
  predicate KeepsGroups(rows: seq<Message>, compacted: set<nat>) {
    forall i | 0 <= i < |rows| :: KeepsGroupAt(rows, compacted, i)
  }

  predicate KeepsGroupAt(rows: seq<Message>, compacted: set<nat>, i: nat)
    requires i < |rows|
  {
    rows[i].role == Tool && i !in compacted ==> 0 < i && i - 1 !in compacted
  }

  lemma {:induction false} OpenCallsOfConverted(rows: seq<Message>, compacted: set<nat>, n: nat)
    requires n <= |rows| && KeepsGroups(rows, compacted)
    requires OpenRows(rows, n) != [] && n - 1 !in compacted
    ensures OpenCalls(Converted(rows, compacted, n)) == OpenRows(rows, n)
  {
    var before, added := Converted(rows, compacted, n - 1), Contribution(rows, compacted, n - 1);
    assert |added| == 1;
    GroupedSnoc(before, added[0]);
    assert before + added == before + [added[0]];
    if rows[n - 1].role == Tool {
      assert KeepsGroupAt(rows, compacted, n - 1);
      OpenCallsOfConverted(rows, compacted, n - 1);
    }
  }

  lemma GroupedStep(before: seq<ModelMessage>, added: seq<ModelMessage>)
    requires Grouped(before) && |added| <= 1
    requires added != [] && added[0].ToolResult? ==> HasCall(OpenCalls(before), added[0].callId)
    ensures Grouped(before + added)
  {
    if added == [] {
      assert before + added == before;
    } else {
      assert added == [added[0]];
      GroupedSnoc(before, added[0]);
    }
  }

  lemma {:induction false} ConvertedGrouped(rows: seq<Message>, compacted: set<nat>, n: nat)
    requires n <= |rows| && RowsGrouped(rows) && KeepsGroups(rows, compacted)
    ensures Grouped(Converted(rows, compacted, n))
  {
    if n > 0 {
      ConvertedGrouped(rows, compacted, n - 1);
      if rows[n - 1].role == Tool && n - 1 !in compacted {
        assert RowAnswers(rows, n - 1) && KeepsGroupAt(rows, compacted, n - 1);
        OpenCallsOfConverted(rows, compacted, n - 1);
      }
      GroupedStep(Converted(rows, compacted, n - 1), Contribution(rows, compacted, n - 1));
    }
  }

  lemma {:induction false} GroupedOfSystem(head: seq<ModelMessage>)
    requires forall i | 0 <= i < |head| :: IsSystem(head[i])
    ensures Grouped(head)
  {
    if head != [] {
      GroupedOfSystem(head[..|head| - 1]);
    }
  }

  /** A context built from grouped rows has no tool result without its call, and says what the rows say. */
  lemma BuiltContext(rows: seq<Message>, compacted: set<nat>, held: seq<Part>)
    requires RowsGrouped(rows) && KeepsGroups(rows, compacted)
    ensures Grouped(BuildContext(rows, compacted, held))
    ensures Spoken(BuildContext(rows, compacted, held)) == Converted(rows, compacted, |rows|)
  {
    var head, body, note := [Instructions] + Recapped(rows, compacted), Converted(rows, compacted, |rows|), Noted(held);
    GroupedOfSystem(head);
    ConvertedGrouped(rows, compacted, |rows|);
    GroupedOfSystem(note);
    GroupedAppend(head, body);
    GroupedAppend(head + body, note);
    SystemIsUnspoken(head);
    SystemIsUnspoken(note);
    ConvertedIsSpoken(rows, compacted, |rows|);
    SpokenAppend(head, body);
    SpokenAppend(head + body, note);
  }

  lemma {:induction false} SystemIsUnspoken(head: seq<ModelMessage>)
    requires forall i | 0 <= i < |head| :: IsSystem(head[i])
    ensures Spoken(head) == []
  {
    if head != [] {
      SystemIsUnspoken(head[1..]);
    }
  }
}
