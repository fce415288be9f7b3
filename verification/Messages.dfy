/** A conversation's stored messages, and the messages a model receives for them. */
module Messages {
  import opened Wrappers
  import opened Commands

  datatype Role = User | Assistant | Tool | Summary

  /** A tool call, in the stored shape. */
  datatype Call = Call(id: string, name: string, arguments: string)

  /** A thought among a search's results. */
  datatype Source = Source(id: string, title: string, createdAt: string, tags: seq<string>)

  /** What the chat shows with a tool message. */
  datatype Details = NoDetails | Sources(sources: seq<Source>) | ProposalShown(proposal: nat)

  datatype Status = Complete | Cut | Failed

  /** A stored message. Its place in the conversation is its position. */
  datatype Message = Message(role: Role, content: Option<string>, calls: seq<Call>, callId: string, status: Status,
                             details: Details)

  /** One thought of a proposal, with the thought the user saved it as, if saved. */
  datatype Part = Part(title: string, summary: string, tags: seq<string>, category: Option<string>,
                       thought: Option<nat>)

  function Unsaved(parts: seq<Part>): seq<Part> {
    if parts == [] then []
    else (if parts[0].thought.None? then [parts[0]] else []) + Unsaved(parts[1..])
  }

  /** A message of the context a model receives. The first three are system messages. */
  datatype ModelMessage =
    | Instructions
    | Recap(summary: string)
    | HeldNote(parts: seq<Part>)
    | UserText(text: string)
    | AssistantText(content: string, calls: seq<Call>)
    | ToolResult(callId: string, content: string)

  predicate IsSystem(m: ModelMessage) {
    m.Instructions? || m.Recap? || m.HeldNote?
  }

  function OrEmpty(content: Option<string>): string {
    content.GetOr("")
  }

  /** Empty text is stored as no content. */
  function OrNone(text: string): Option<string> {
    if text == "" then None else Some(text)
  }

  function AsModelMessage(m: Message): Option<ModelMessage> {
    match m.role
    case User => Some(UserText(TextForModel(OrEmpty(m.content))))
    case Assistant =>
      // An assistant row with neither text nor calls says nothing.
      if OrEmpty(m.content) == "" && m.calls == [] then None else Some(AssistantText(OrEmpty(m.content), m.calls))
    case Tool => Some(ToolResult(m.callId, OrEmpty(m.content)))
    case Summary => None
  }

  /** What one row adds to the context. */
  function Contribution(rows: seq<Message>, compacted: set<nat>, i: nat): seq<ModelMessage>
    requires i < |rows|
  {
    if i in compacted || rows[i].role == Summary then []
    else
      match AsModelMessage(rows[i])
      case None => []
      case Some(m) => [m]
  }

  /** What the first n rows add to the context: every one of them that is not compacted. */
  function Converted(rows: seq<Message>, compacted: set<nat>, n: nat): seq<ModelMessage>
    requires n <= |rows|
  {
    if n == 0 then [] else Converted(rows, compacted, n - 1) + Contribution(rows, compacted, n - 1)
  }

  /** The latest of the summaries among the first n rows that is not compacted. */
  function LatestSummary(rows: seq<Message>, compacted: set<nat>, n: nat): Option<nat>
    requires n <= |rows|
  {
    if n == 0 then None
    else if rows[n - 1].role == Summary && n - 1 !in compacted then Some(n - 1)
    else LatestSummary(rows, compacted, n - 1)
  }

  lemma {:induction false} LatestSummaryMeaning(rows: seq<Message>, compacted: set<nat>, n: nat)
    requires n <= |rows|
    ensures LatestSummary(rows, compacted, n).Some? ==>
              var s := LatestSummary(rows, compacted, n).value;
              s < n && rows[s].role == Summary && s !in compacted
    ensures forall i | 0 <= i < n && rows[i].role == Summary && i !in compacted ::
              LatestSummary(rows, compacted, n).Some? && i <= LatestSummary(rows, compacted, n).value
  {
    if n > 0 {
      LatestSummaryMeaning(rows, compacted, n - 1);
    }
  }

  /** The message with the latest summary, if there is one. */
  function Recapped(rows: seq<Message>, compacted: set<nat>): seq<ModelMessage> {
    LatestSummaryMeaning(rows, compacted, |rows|);
    match LatestSummary(rows, compacted, |rows|)
    case None => []
    case Some(s) => [Recap(OrEmpty(rows[s].content))]
  }

  /** The note on a held proposal: its unsaved parts, if it has any. */
  function Noted(held: seq<Part>): seq<ModelMessage> {
    if Unsaved(held) == [] then [] else [HeldNote(Unsaved(held))]
  }

  /** What a turn's first call is given: instructions, the latest summary's text, the live rows
      in order, and a note of the held parts, if there are any. */
  function BuildContext(rows: seq<Message>, compacted: set<nat>, held: seq<Part>): seq<ModelMessage> {
    [Instructions] + Recapped(rows, compacted) + Converted(rows, compacted, |rows|) + Noted(held)
  }

  /** The context without the first copy of a message. */
  function Without(context: seq<ModelMessage>, m: ModelMessage): seq<ModelMessage> {
    if context == [] then []
    else if context[0] == m then context[1..]
    else [context[0]] + Without(context[1..], m)
  }

  /** The context without the note on these parts. */
  function DropHeldNote(context: seq<ModelMessage>, held: seq<Part>): seq<ModelMessage> {
    if held == [] then context else Without(context, HeldNote(Unsaved(held)))
  }

  // --- Tool results follow their calls -----------------------------------------

  predicate HasCall(calls: seq<Call>, id: string) {
    exists i | 0 <= i < |calls| :: calls[i].id == id
  }

  /** The calls that a tool result at the end of the context may answer: those of the
      last message that is not a tool result, if it is the assistant's. */
  function OpenCalls(context: seq<ModelMessage>): seq<Call> {
    if context == [] then []
    else
      match context[|context| - 1]
      case AssistantText(_, calls) => calls
      case ToolResult(_, _) => OpenCalls(context[..|context| - 1])
      case _ => []
  }

  /** Each tool result answers an open call. */
  predicate Grouped(context: seq<ModelMessage>) {
    context != [] ==>
      var before, last := context[..|context| - 1], context[|context| - 1];
      Grouped(before) && (last.ToolResult? ==> HasCall(OpenCalls(before), last.callId))
  }

  /** The tool result at k follows the assistant message at j that holds its call,
      with only results of that message's calls in between. */
  predicate Follows(context: seq<ModelMessage>, j: nat, k: nat)
    requires j < k < |context| && context[k].ToolResult?
  {
    && context[j].AssistantText?
    && forall x | j < x <= k :: context[x].ToolResult? && HasCall(context[j].calls, context[x].callId)
  }

  /** No tool result is without its call. */
  ghost predicate NoOrphan(context: seq<ModelMessage>) {
    forall k | 0 <= k < |context| && context[k].ToolResult? :: exists j :: 0 <= j < k && Follows(context, j, k)
  }

  lemma {:induction false} OpenCallsFound(context: seq<ModelMessage>, id: string) returns (j: nat)
    requires Grouped(context) && HasCall(OpenCalls(context), id)
    ensures j < |context| && context[j].AssistantText? && context[j].calls == OpenCalls(context)
    ensures forall x | j < x < |context| :: context[x].ToolResult? && HasCall(context[j].calls, context[x].callId)
    decreases |context|
  {
    var last := |context| - 1;
    if context[last].AssistantText? {
      j := last;
    } else {
      j := OpenCallsFound(context[..last], id);
    }
  }

  lemma {:induction false} GroupedPrefix(context: seq<ModelMessage>, n: nat)
    requires Grouped(context) && n <= |context|
    ensures Grouped(context[..n])
    decreases |context|
  {
    if n < |context| {
      GroupedPrefix(context[..|context| - 1], n);
      assert context[..|context| - 1][..n] == context[..n];
    } else {
      assert context[..n] == context;
    }
  }

  lemma OwnerOf(context: seq<ModelMessage>, k: nat) returns (j: nat)
    requires Grouped(context) && k < |context| && context[k].ToolResult?
    ensures j < k && Follows(context, j, k)
  {
    GroupedPrefix(context, k + 1);
    GroupedPrefix(context, k);
    assert context[..k + 1][..k] == context[..k];
    j := OpenCallsFound(context[..k], context[k].callId);
    forall x | j < x <= k
      ensures context[x].ToolResult? && HasCall(context[j].calls, context[x].callId)
    {
      if x < k {
        assert context[..k][x] == context[x];
      }
    }
  }

  lemma GroupedMeansNoOrphan(context: seq<ModelMessage>)
    requires Grouped(context)
    ensures NoOrphan(context)
  {
    forall k | 0 <= k < |context| && context[k].ToolResult?
      ensures exists j :: 0 <= j < k && Follows(context, j, k)
    {
      var j := OwnerOf(context, k);
    }
  }

  lemma {:induction false} GroupedAppend(a: seq<ModelMessage>, b: seq<ModelMessage>)
    requires Grouped(a) && Grouped(b)
    ensures Grouped(a + b)
    ensures OpenCalls(b) != [] ==> OpenCalls(a + b) == OpenCalls(b)
    decreases |b|
  {
    if b == [] {
      assert a + b == a;
    } else {
      var before, last := b[..|b| - 1], b[|b| - 1];
      GroupedAppend(a, before);
      assert (a + b)[..|a + b| - 1] == a + before;
    }
  }

  lemma GroupedSnoc(context: seq<ModelMessage>, m: ModelMessage)
    ensures Grouped(context + [m]) <==> Grouped(context) && (m.ToolResult? ==> HasCall(OpenCalls(context), m.callId))
    ensures OpenCalls(context + [m]) ==
            if m.AssistantText? then m.calls else if m.ToolResult? then OpenCalls(context) else []
  {
    assert (context + [m])[..|context|] == context;
  }

  /** A system message stands between no result and its call, so it can be left out. */
  lemma {:induction false} GroupedWithoutSystem(a: seq<ModelMessage>, m: ModelMessage, b: seq<ModelMessage>)
    requires IsSystem(m) && Grouped(a + [m] + b)
    ensures Grouped(a + b)
    ensures b != [] ==> OpenCalls(a + b) == OpenCalls(a + [m] + b)
    decreases |b|
  {
    if b == [] {
      Assoc(a, [m], b);
      Assoc(a, [], b);
      GroupedSnoc(a, m);
    } else {
      var before, last := b[..|b| - 1], b[|b| - 1];
      assert b == before + [last];
      Assoc(a + [m], before, [last]);
      Assoc(a, before, [last]);
      GroupedSnoc(a + [m] + before, last);
      GroupedSnoc(a + before, last);
      GroupedWithoutSystem(a, m, before);
      if before == [] {
        Assoc(a + [m], [], []);
        GroupedSnoc(a, m);
      }
    }
  }

  /** What a context says apart from its system messages. */
  function Spoken(context: seq<ModelMessage>): seq<ModelMessage> {
    if context == [] then []
    else (if IsSystem(context[0]) then [] else [context[0]]) + Spoken(context[1..])
  }

  lemma {:induction false} SpokenAppend(a: seq<ModelMessage>, b: seq<ModelMessage>)
    ensures Spoken(a + b) == Spoken(a) + Spoken(b)
  {
    if a == [] {
      assert a + b == b;
    } else {
      assert (a + b)[1..] == a[1..] + b;
      SpokenAppend(a[1..], b);
    }
  }

  lemma SpokenWithoutSystem(a: seq<ModelMessage>, m: ModelMessage, b: seq<ModelMessage>)
    requires IsSystem(m)
    ensures Spoken(a + [m] + b) == Spoken(a + b)
  {
    SpokenAppend(a + [m], b);
    SpokenAppend(a, [m]);
    SpokenAppend(a, b);
    assert Spoken([m]) == [];
  }

  lemma {:induction false} WithoutSplits(context: seq<ModelMessage>, m: ModelMessage)
      returns (a: seq<ModelMessage>, b: seq<ModelMessage>)
    ensures context == Without(context, m) || (context == a + [m] + b && Without(context, m) == a + b)
  {
    a, b := [], [];
    if context != [] {
      if context[0] == m {
        b := context[1..];
      } else {
        a, b := WithoutSplits(context[1..], m);
        a := [context[0]] + a;
      }
    }
  }

  /** Dropping the note loses nothing that was said, and leaves no result without its call. */
  lemma DropHeldNoteKeeps(context: seq<ModelMessage>, held: seq<Part>)
    requires Grouped(context)
    ensures Grouped(DropHeldNote(context, held))
    ensures Spoken(DropHeldNote(context, held)) == Spoken(context)
  {
    var note := HeldNote(Unsaved(held));
    var a, b := WithoutSplits(context, note);
    if held != [] && context != Without(context, note) {
      GroupedWithoutSystem(a, note, b);
      SpokenWithoutSystem(a, note, b);
    }
  }

  lemma ContributionIsSpoken(rows: seq<Message>, compacted: set<nat>, i: nat)
    requires i < |rows|
    ensures Spoken(Contribution(rows, compacted, i)) == Contribution(rows, compacted, i)
  {
    var added := Contribution(rows, compacted, i);
    if added != [] {
      assert added == [added[0]] && !IsSystem(added[0]);
      assert added[1..] == [];
    }
  }

  lemma SpokenJoin(a: seq<ModelMessage>, b: seq<ModelMessage>)
    requires Spoken(a) == a && Spoken(b) == b
    ensures Spoken(a + b) == a + b
  {
    SpokenAppend(a, b);
  }

  lemma {:induction false} ConvertedIsSpoken(rows: seq<Message>, compacted: set<nat>, n: nat)
    requires n <= |rows|
    ensures Spoken(Converted(rows, compacted, n)) == Converted(rows, compacted, n)
  {
    if n > 0 {
      ConvertedIsSpoken(rows, compacted, n - 1);
      ContributionIsSpoken(rows, compacted, n - 1);
      SpokenJoin(Converted(rows, compacted, n - 1), Contribution(rows, compacted, n - 1));
    }
  }
}
