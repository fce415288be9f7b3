/** What a model is told, over whole runs of a conversation: the instructions, the text of the latest
    accepted summary, the messages that are not compacted, and a note of what is held. */
module Contexts {
  import opened Wrappers
  import Text
  import opened Commands
  import opened Messages
  import opened Transcript
  import opened Compactions
  import opened Proposals
  import opened Lifecycle
  import opened Chat
  import opened ChatInvariants
  import opened ChatRuns

  // --- The messages among what it is told -------------------------------------------------------

  /** A row that a model is told of: not compacted, not a summary, and an answer that says something. */
  predicate Speaks(rows: seq<Message>, compacted: set<nat>, i: nat) {
    && i < |rows| && i !in compacted && rows[i].role != Summary
    && (rows[i].role == Assistant ==> OrEmpty(rows[i].content) != "" || rows[i].calls != [])
  }

  /** How it is told of one: the user's text without its command, or the whole row. */
  predicate Tells(m: ModelMessage, row: Message) {
    match row.role
    case User => m == UserText(TextForModel(OrEmpty(row.content)))
    case Assistant => m == AssistantText(OrEmpty(row.content), row.calls)
    case Tool => m == ToolResult(row.callId, OrEmpty(row.content))
    case Summary => false
  }

  /** These messages tell of just the rows that speak among the first n, in order. */
  ghost predicate TellsAll(told: seq<ModelMessage>, at: seq<nat>, rows: seq<Message>, compacted: set<nat>, n: nat) {
    && |told| == |at| && Ascending(at)
    && (forall i: nat :: i in at <==> i < n && Speaks(rows, compacted, i))
    && (forall x | 0 <= x < |at| :: at[x] < |rows| && Tells(told[x], rows[at[x]]))
  }

  lemma {:induction false} ConvertedTells(rows: seq<Message>, compacted: set<nat>, n: nat) returns (at: seq<nat>)
    requires n <= |rows|
    ensures TellsAll(Converted(rows, compacted, n), at, rows, compacted, n)
  {
    at := [];
    if n > 0 {
      at := ConvertedTells(rows, compacted, n - 1);
      at := OneMoreTold(Converted(rows, compacted, n - 1), at, rows, compacted, n - 1);
    }
  }

  lemma OneMoreTold(told: seq<ModelMessage>, at: seq<nat>, rows: seq<Message>, compacted: set<nat>, n: nat)
      returns (longer: seq<nat>)
    requires n < |rows| && TellsAll(told, at, rows, compacted, n)
    ensures TellsAll(told + Contribution(rows, compacted, n), longer, rows, compacted, n + 1)
  {
    var added := Contribution(rows, compacted, n);
    if Speaks(rows, compacted, n) {
      longer := at + [n];
      assert forall x | 0 <= x < |at| :: at[x] in at;
    } else {
      longer := at;
      assert told + added == told;
    }
  }

  // --- The unsaved parts -------------------------------------------------------------------------

  /** These are just the parts that are not saved, in order. */
  ghost predicate LeavesUnsaved(unsaved: seq<Part>, from: seq<nat>, parts: seq<Part>) {
    && |unsaved| == |from| && Ascending(from)
    && (forall i: nat :: i in from <==> i < |parts| && parts[i].thought.None?)
    && (forall x | 0 <= x < |from| :: from[x] < |parts| && unsaved[x] == parts[from[x]])
  }

  lemma UnsavedCons(part: Part, rest: seq<Part>)
    ensures Unsaved([part] + rest) == (if part.thought.None? then [part] else []) + Unsaved(rest)
  {
    assert ([part] + rest)[1..] == rest;
  }

  lemma {:induction false} UnsavedSnoc(parts: seq<Part>, part: Part)
    ensures Unsaved(parts + [part]) == Unsaved(parts) + if part.thought.None? then [part] else []
  {
    if parts == [] {
      assert [part][1..] == [];
    } else {
      var rest := parts[1..];
      assert parts + [part] == [parts[0]] + (rest + [part]);
      UnsavedCons(parts[0], rest + [part]);
      UnsavedSnoc(rest, part);
      Assoc(if parts[0].thought.None? then [parts[0]] else [], Unsaved(rest),
            if part.thought.None? then [part] else []);
    }
  }

  lemma {:induction false} UnsavedLeaves(parts: seq<Part>) returns (from: seq<nat>)
    ensures LeavesUnsaved(Unsaved(parts), from, parts)
  {
    from := [];
    if parts != [] {
      var before, part := parts[..|parts| - 1], parts[|parts| - 1];
      from := UnsavedLeaves(before);
      assert parts == before + [part];
      UnsavedSnoc(before, part);
      from := OneMoreUnsaved(before, Unsaved(before), from, part);
    }
  }

  lemma OneMoreUnsaved(parts: seq<Part>, unsaved: seq<Part>, from: seq<nat>, part: Part) returns (longer: seq<nat>)
    requires LeavesUnsaved(unsaved, from, parts)
    ensures LeavesUnsaved(unsaved + if part.thought.None? then [part] else [], longer, parts + [part])
  {
    longer := from + if part.thought.None? then [|parts|] else [];
    assert forall x | 0 <= x < |from| :: from[x] in from;
    forall i: nat
      ensures i in longer <==> i < |parts + [part]| && (parts + [part])[i].thought.None?
    {
      assert i in longer <==> i in from || (i == |parts| && part.thought.None?);
    }
  }

  // --- The summary accepted last -------------------------------------------------------------------

  /** The text of the last of the first k steps that accepted a summary, without whitespace around
      it; none when none did. An acceptance that changes nothing was refused. */
  function LastAccepted(states: seq<State>, steps: seq<Step>, k: nat): Option<string>
    requires k <= |steps| < |states|
  {
    if k == 0 then None
    else if steps[k - 1].Accept? && states[k] != states[k - 1] then Some(Text.Strip(steps[k - 1].text))
    else LastAccepted(states, steps, k - 1)
  }

  /** The live summary's text, as it is stored. */
  function SummaryText(t: Transcript): Option<string> {
    LatestSummaryMeaning(t.rows, t.compacted, |t.rows|);
    match Latest(t)
    case None => None
    case Some(s) => Some(OrEmpty(t.rows[s].content))
  }

  /** No row, or one that is not a summary, was added. */
  predicate GrowsPlainly(before: Transcript, after: Transcript) {
    && after.compacted == before.compacted
    && (|| after.rows == before.rows
        || (|after.rows| == |before.rows| + 1 && after.rows[..|before.rows|] == before.rows
            && after.rows[|before.rows|].role != Summary))
  }

  lemma SummaryTextStays(before: Transcript, after: Transcript)
    requires GrowsPlainly(before, after)
    ensures SummaryText(after) == SummaryText(before)
  {
    if after.rows != before.rows {
      var row := after.rows[|before.rows|];
      assert after.rows == before.rows + [row];
      LatestSummaryMeaning(before.rows, before.compacted, |before.rows|);
      LatestSummaryFrame(before.rows, row, before.compacted, |before.rows|);
    }
  }

  lemma OthersGrowPlainly(s: State, step: Step)
    requires Enabled(s, step) && !step.Accept?
    ensures GrowsPlainly(s.thread, Apply(s, step).thread)
  {
  }

  lemma AcceptChanges(s: State, d: nat, text: string)
    requires Sound(s.thread) && Enabled(s, Accept(d, text))
    ensures var after := Apply(s, Accept(d, text));
            && (after != s ==> SummaryText(after.thread) == Some(Text.Strip(text)) && after.thread.compacted != {})
  {
    if !Text.IsBlank(text) && Accepted(s.thread, d, Text.Strip(text)).Some? {
      AcceptedLatest(s.thread, d, Text.Strip(text));
    }
  }

  lemma SummaryStep(s: State, step: Step, after: State)
    requires Sound(s.thread) && Enabled(s, step) && after == Apply(s, step)
    ensures if step.Accept? && after != s then
              SummaryText(after.thread) == Some(Text.Strip(step.text)) && after.thread.compacted != {}
            else SummaryText(after.thread) == SummaryText(s.thread) && after.thread.compacted == s.thread.compacted
  {
    if step.Accept? {
      AcceptChanges(s, step.draft, step.text);
    } else {
      OthersGrowPlainly(s, step);
      SummaryTextStays(s.thread, after.thread);
    }
  }

  lemma {:induction false} SummaryIsLastAccepted(states: seq<State>, steps: seq<Step>, k: nat)
    requires Run(states, steps) && k < |states|
    ensures SummaryText(states[k].thread) == LastAccepted(states, steps, k)
    ensures states[k].thread.compacted == {} <==> LastAccepted(states, steps, k).None?
  {
    if k > 0 {
      SummaryIsLastAccepted(states, steps, k - 1);
      RunKeeps(states, steps, k - 1);
      SummaryStep(states[k - 1], steps[k - 1], states[k]);
    }
  }

  // --- All of it ---------------------------------------------------------------------------------------

  function RecapOf(text: Option<string>): seq<ModelMessage> {
    match text
    case None => []
    case Some(summary) => [Recap(summary)]
  }

  function NoteOn(unsaved: seq<Part>): seq<ModelMessage> {
    if unsaved == [] then [] else [HeldNote(unsaved)]
  }

  /** The parts of the proposal written last, while one of them is unsaved. */
  function PartsHeld(desk: Desk): seq<Part> {
    if desk.proposals != [] && HasUnsaved(desk.proposals[|desk.proposals| - 1].parts) then
      desk.proposals[|desk.proposals| - 1].parts
    else []
  }

  /** In every state of every run: the instructions; the text of the summary accepted last, which
      there is just when anything is compacted; each message that is not compacted; and, last, a note
      of the held proposal's unsaved parts, when there are any. A turn opens with that. */
  lemma ModelIsTold(states: seq<State>, steps: seq<Step>, k: nat)
      returns (told: seq<ModelMessage>, at: seq<nat>, unsaved: seq<Part>, from: seq<nat>)
    requires Run(states, steps) && k < |states|
    ensures NextContext(states[k]) ==
            [Instructions] + RecapOf(LastAccepted(states, steps, k)) + told + NoteOn(unsaved)
    ensures states[k].thread.compacted == {} <==> LastAccepted(states, steps, k).None?
    ensures TellsAll(told, at, states[k].thread.rows, states[k].thread.compacted, |states[k].thread.rows|)
    ensures LeavesUnsaved(unsaved, from, PartsHeld(states[k].desk))
    ensures k > 0 && steps[k - 1].Send? && steps[k - 1].reached ==>
              states[k].turn.Some? && states[k].turn.value.context == NextContext(states[k])
  {
    var s := states[k];
    RunKeeps(states, steps, k);
    SummaryIsLastAccepted(states, steps, k);
    told := Converted(s.thread.rows, s.thread.compacted, |s.thread.rows|);
    at := ConvertedTells(s.thread.rows, s.thread.compacted, |s.thread.rows|);
    unsaved := Unsaved(HeldParts(s.desk));
    HeldIsLast(s.desk);
    from := UnsavedLeaves(HeldParts(s.desk));
    RecapIsSummary(s.thread);
    if k > 0 && steps[k - 1].Send? {
      SendOpens(states[k - 1], steps[k - 1].text, steps[k - 1].limit, steps[k - 1].reached);
    }
  }

  lemma HeldIsLast(desk: Desk)
    requires DeskSound(desk)
    ensures HeldParts(desk) == PartsHeld(desk)
  {
  }

  lemma RecapIsSummary(t: Transcript)
    ensures Recapped(t.rows, t.compacted) == RecapOf(SummaryText(t))
  {
  }

  lemma SendOpens(s: State, text: string, limit: nat, reached: bool)
    requires Enabled(s, Send(text, limit, reached))
    ensures var after := Apply(s, Send(text, limit, reached));
            && after.desk == s.desk && (after.turn.Some? <==> reached)
            && (reached ==>
                  && after.turn.value.context == NextContext(after) && after.turn.value.note == HeldParts(s.desk)
                  && after.turn.value.shown.None?)
  {
  }

  // --- While a turn runs ---------------------------------------------------------------------------------

  function SystemOf(context: seq<ModelMessage>): seq<ModelMessage> {
    if context == [] then []
    else (if IsSystem(context[0]) then [context[0]] else []) + SystemOf(context[1..])
  }

  lemma {:induction false} SystemAppend(a: seq<ModelMessage>, b: seq<ModelMessage>)
    ensures SystemOf(a + b) == SystemOf(a) + SystemOf(b)
  {
    if a == [] {
      assert a + b == b;
    } else {
      assert (a + b)[1..] == a[1..] + b;
      SystemAppend(a[1..], b);
    }
  }

  lemma {:induction false} SystemOnly(head: seq<ModelMessage>)
    requires forall i | 0 <= i < |head| :: IsSystem(head[i])
    ensures SystemOf(head) == head
  {
    if head != [] {
      SystemOnly(head[1..]);
    }
  }

  lemma {:induction false} SpokenHasNone(told: seq<ModelMessage>)
    requires Spoken(told) == told
    ensures SystemOf(told) == []
  {
    if told != [] {
      SpokenLength(told[1..]);
      SpokenHasNone(told[1..]);
    }
  }

  lemma {:induction false} SpokenLength(told: seq<ModelMessage>)
    ensures |Spoken(told)| <= |told|
  {
    if told != [] {
      SpokenLength(told[1..]);
    }
  }

  lemma HeadOfSnoc(head: seq<ModelMessage>, m: ModelMessage)
    ensures (head + [m])[0] == if head == [] then m else head[0]
  {
  }

  lemma {:induction false} SystemWithout(context: seq<ModelMessage>, m: ModelMessage, head: seq<ModelMessage>)
    requires IsSystem(m) && m !in head && SystemOf(context) == head + [m]
    ensures SystemOf(Without(context, m)) == head
  {
    HeadOfSnoc(head, m);
    if context[0] == m {
    } else if IsSystem(context[0]) {
      assert (head + [m])[0] == context[0];
      assert SystemOf(context[1..]) == (head + [m])[1..] == head[1..] + [m];
      SystemWithout(context[1..], m, head[1..]);
    } else {
      SystemWithout(context[1..], m, head);
    }
  }

  lemma {:induction false} HeadStays(context: seq<ModelMessage>, m: ModelMessage, head: seq<ModelMessage>)
    requires head <= context && m !in head
    ensures head <= Without(context, m)
  {
    if head != [] {
      assert head[0] == context[0] && head[0] != m;
      HeadStays(context[1..], m, head[1..]);
    }
  }

  /** A turn's context starts as it did, and has no other system message but the note on what was
      held when it opened, until it makes a proposal. */
  predicate ToldSound(turn: Turn, head: seq<ModelMessage>, held: seq<Part>) {
    && head <= turn.context
    && SystemOf(turn.context) == head + (if turn.shown.None? then NoteOn(Unsaved(held)) else [])
    && turn.note == (if turn.shown.None? then held else [])
  }

  lemma ToldMore(turn: Turn, head: seq<ModelMessage>, held: seq<Part>, m: ModelMessage, after: Turn)
    requires ToldSound(turn, head, held) && !IsSystem(m)
    requires after.context == turn.context + [m] && after.shown == turn.shown && after.note == turn.note
    ensures ToldSound(after, head, held)
  {
    SystemAppend(turn.context, [m]);
    assert SystemOf([m]) == [];
  }

  lemma ToldLess(turn: Turn, head: seq<ModelMessage>, held: seq<Part>, after: Turn)
    requires ToldSound(turn, head, held) && turn.shown.None?
    requires held == [] || Unsaved(held) != []
    requires forall i | 0 <= i < |head| :: !head[i].HeldNote?
    requires after.context == DropHeldNote(turn.context, turn.note) && after.shown.Some? && after.note == []
    ensures ToldSound(after, head, held)
  {
    if held != [] {
      SystemWithout(turn.context, HeldNote(Unsaved(held)), head);
      HeadStays(turn.context, HeldNote(Unsaved(held)), head);
    }
  }

  lemma StepKeepsTold(s: State, step: Step, head: seq<ModelMessage>, held: seq<Part>)
    requires Enabled(s, step) && s.turn.Some? && !step.Close?
    requires ToldSound(s.turn.value, head, held)
    requires held == [] || Unsaved(held) != []
    requires forall i | 0 <= i < |head| :: !head[i].HeldNote?
    ensures Apply(s, step).turn.Some? && ToldSound(Apply(s, step).turn.value, head, held)
  {
    var turn, after := s.turn.value, Apply(s, step).turn;
    if step.EndRound? {
      ToldMore(turn, head, held, AssistantText(turn.answer, step.calls), after.value);
    } else if step.Return? {
      ToldMore(turn, head, held, ToolResult(CurrentCall(s, turn).id, step.content), after.value);
    } else if step.Propose? {
      ToldLess(turn, head, held, after.value);
    } else {
      SameTold(turn, head, held, after.value);
    }
  }

  lemma SameTold(turn: Turn, head: seq<ModelMessage>, held: seq<Part>, after: Turn)
    requires ToldSound(turn, head, held)
    requires after.context == turn.context && after.shown == turn.shown && after.note == turn.note
    ensures ToldSound(after, head, held)
  {
  }

  /** From the step that opens a turn until it ends, its context starts with the instructions and the
      text of the summary accepted last, and its only other system message is the note on what was
      held at the start, which is gone once the turn has made a proposal. */
  lemma {:induction false} TurnIsTold(states: seq<State>, steps: seq<Step>, j: nat, k: nat)
    requires Run(states, steps) && j < k < |states| && steps[j].Send?
    requires forall i | j < i <= k :: states[i].turn.Some?
    ensures var turn, head := states[k].turn.value, [Instructions] + RecapOf(LastAccepted(states, steps, k));
            && head <= turn.context
            && SystemOf(turn.context) ==
               head + if turn.shown.None? then NoteOn(Unsaved(PartsHeld(states[j].desk))) else []
  {
    TurnToldSound(states, steps, j, k);
  }

  lemma {:induction false} TurnToldSound(states: seq<State>, steps: seq<Step>, j: nat, k: nat)
    requires Run(states, steps) && j < k < |states| && steps[j].Send?
    requires forall i | j < i <= k :: states[i].turn.Some?
    ensures ToldSound(states[k].turn.value, [Instructions] + RecapOf(LastAccepted(states, steps, k)),
                      PartsHeld(states[j].desk))
  {
    var held := PartsHeld(states[j].desk);
    UnsavedMeaning(held);
    if k == j + 1 {
      OpensToldSound(states, steps, j);
    } else {
      TurnToldSound(states, steps, j, k - 1);
      NotAccepting(states[k - 1], steps[k - 1], states[k]);
      StepKeepsTold(states[k - 1], steps[k - 1], [Instructions] + RecapOf(LastAccepted(states, steps, k - 1)), held);
    }
  }

  lemma NotAccepting(s: State, step: Step, after: State)
    requires Enabled(s, step) && after == Apply(s, step) && s.turn.Some? && after.turn.Some?
    ensures !step.Accept? && !step.Close?
  {
  }

  lemma BuiltIsTold(t: Transcript, held: seq<Part>)
    ensures var context, head := BuildContext(t.rows, t.compacted, held), [Instructions] + RecapOf(SummaryText(t));
            head <= context && SystemOf(context) == head + NoteOn(Unsaved(held))
  {
    var head, told, note := [Instructions] + RecapOf(SummaryText(t)), Converted(t.rows, t.compacted, |t.rows|),
      Noted(held);
    RecapIsSummary(t);
    ConvertedIsSpoken(t.rows, t.compacted, |t.rows|);
    SpokenHasNone(told);
    FramedSystem(head, told, note);
  }

  lemma FramedSystem(head: seq<ModelMessage>, told: seq<ModelMessage>, note: seq<ModelMessage>)
    requires forall i | 0 <= i < |head| :: IsSystem(head[i])
    requires forall i | 0 <= i < |note| :: IsSystem(note[i])
    requires SystemOf(told) == []
    ensures SystemOf(head + told + note) == head + note
  {
    SystemOnly(head);
    SystemOnly(note);
    SystemAppend(head, told);
    SystemAppend(head + told, note);
    Assoc(head, [], []);
  }

  lemma OpensToldSound(states: seq<State>, steps: seq<Step>, j: nat)
    requires Run(states, steps) && j < |steps| && steps[j].Send? && states[j + 1].turn.Some?
    ensures ToldSound(states[j + 1].turn.value, [Instructions] + RecapOf(LastAccepted(states, steps, j + 1)),
                      PartsHeld(states[j].desk))
  {
    var s := states[j + 1];
    RunKeeps(states, steps, j);
    HeldIsLast(states[j].desk);
    SummaryIsLastAccepted(states, steps, j + 1);
    SendOpens(states[j], steps[j].text, steps[j].limit, steps[j].reached);
    BuiltIsTold(s.thread, HeldParts(s.desk));
  }
}
