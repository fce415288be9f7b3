/** What holds over whole runs of a conversation: any interleaving of turns that complete, fail or
    are cut, resends, drafts, acceptances however stale, offers and confirms. */
module ChatRuns {
  import opened Wrappers
  import Text
  import opened Commands
  import opened Messages
  import opened Transcript
  import opened Compactions
  import opened RawText
  import opened Proposals
  import opened Lifecycle
  import opened Discussions
  import opened Chat
  import opened ChatInvariants

  /** The context that the next call would be built from. */
  function NextContext(s: State): seq<ModelMessage> {
    BuildContext(s.thread.rows, s.thread.compacted, HeldParts(s.desk))
  }

  /** No tool result ever reaches a model without its call, neither from the stored rows nor from
      the context in memory. */
  lemma NoOrphanedResult(states: seq<State>, steps: seq<Step>, k: nat)
    requires Run(states, steps) && k < |states|
    ensures NoOrphan(NextContext(states[k]))
    ensures states[k].turn.Some? ==> NoOrphan(states[k].turn.value.context)
  {
    var s := states[k];
    RunKeeps(states, steps, k);
    SoundKeepsGroups(s.thread);
    BuiltContext(s.thread.rows, s.thread.compacted, HeldParts(s.desk));
    GroupedMeansNoOrphan(NextContext(s));
    if s.turn.Some? {
      GroupedMeansNoOrphan(s.turn.value.context);
    }
  }

  /** When a round opens, and while its calls run, the context in memory says what the stored rows say. */
  lemma ContextMatchesRows(states: seq<State>, steps: seq<Step>, k: nat)
    requires Run(states, steps) && k < |states|
    requires states[k].turn.Some? && (states[k].turn.value.phase.Streaming? || states[k].turn.value.phase.Tools?)
    ensures Spoken(states[k].turn.value.context) == Spoken(NextContext(states[k]))
  {
    var s := states[k];
    RunKeeps(states, steps, k);
    SoundKeepsGroups(s.thread);
    BuiltContext(s.thread.rows, s.thread.compacted, HeldParts(s.desk));
  }

  // --- Compactions --------------------------------------------------------------------------

  /** What is compacted is a prefix of the messages, and one live summary covers it. */
  lemma SummaryCoversPrefix(states: seq<State>, steps: seq<Step>, k: nat, i: nat)
    requires Run(states, steps) && k < |states|
    requires i in states[k].thread.compacted && i < |states[k].thread.rows| && states[k].thread.rows[i].role != Summary
    ensures var t := states[k].thread;
            && (forall j: nat | j <= i && t.rows[j].role != Summary :: j in t.compacted)
            && Latest(t).Some? && Traced(t, Latest(t).value)
            && i in t.drafts[t.origins[Latest(t).value]].covered
            && (forall s: nat | s < |t.rows| && t.rows[s].role == Summary && s !in t.compacted :: s == Latest(t).value)
  {
    RunKeeps(states, steps, k);
    SummaryCovers(states[k].thread, i);
  }

  /** Accepting a draft, whenever it was issued, is refused just when the text is blank or the
      summaries accepted since replaced every message it would. */
  lemma StaleDraftRefused(states: seq<State>, steps: seq<Step>, k: nat, d: nat, text: string)
    requires Run(states, steps) && k < |states| && Enabled(states[k], Accept(d, text))
    ensures Apply(states[k], Accept(d, text)) == states[k] <==>
            Text.IsBlank(text) || states[k].thread.drafts[d].through < FirstKept(states[k].thread)
  {
    RunKeeps(states, steps, k);
    var t := states[k].thread;
    StaleIsRefused(t, d, Text.Strip(text));
    if !Text.IsBlank(text) && Accepted(t, d, Text.Strip(text)).Some? {
      assert |Accepted(t, d, Text.Strip(text)).value.rows| == |t.rows| + 1;
    }
  }

  lemma FreshAccepted(t: Transcript, keepRecent: nat, text: string)
    requires Sound(t) && DraftNow(t, keepRecent).Some?
    ensures var issued, draft := Issued(t, DraftNow(t, keepRecent).value), DraftNow(t, keepRecent).value;
            && Accepted(issued, |t.drafts|, text).Some?
            && |Accepted(issued, |t.drafts|, text).value.rows| == |t.rows| + 1
            && FirstKept(Accepted(issued, |t.drafts|, text).value) == draft.through + 1
  {
    DraftNowSound(t, keepRecent);
    IssuedKeeps(t, keepRecent);
    var issued := Issued(t, DraftNow(t, keepRecent).value);
    StaleIsRefused(issued, |t.drafts|, text);
    AcceptedLatest(issued, |t.drafts|, text);
  }

  lemma DraftStep(s: State, keepRecent: nat)
    requires s.turn.None? && DraftNow(s.thread, keepRecent).Some?
    ensures Apply(s, DraftSummary(keepRecent)) == s.(thread := Issued(s.thread, DraftNow(s.thread, keepRecent).value))
  {
  }

  lemma AcceptStep(s: State, d: nat, text: string)
    requires s.turn.None? && d < |s.thread.drafts| && !Text.IsBlank(text)
    requires Accepted(s.thread, d, Text.Strip(text)).Some?
    ensures Enabled(s, Accept(d, text))
    ensures Apply(s, Accept(d, text)) == s.(thread := Accepted(s.thread, d, Text.Strip(text)).value)
  {
  }

  lemma IssuedDrafts(t: Transcript, draft: Draft)
    ensures |Issued(t, draft).drafts| == |t.drafts| + 1 && Issued(t, draft).rows == t.rows
  {
  }

  /** A draft of the current messages replaces something, so accepting it now is not refused; then
      just the messages through its position are compacted. */
  lemma FreshDraftAccepted(states: seq<State>, steps: seq<Step>, k: nat, keepRecent: nat, text: string)
    requires Run(states, steps) && k < |states| && states[k].turn.None?
    requires DraftNow(states[k].thread, keepRecent).Some? && !Text.IsBlank(text)
    ensures var drafted := Apply(states[k], DraftSummary(keepRecent));
            var d, through := |states[k].thread.drafts|, DraftNow(states[k].thread, keepRecent).value.through;
            && Enabled(drafted, Accept(d, text))
            && Apply(drafted, Accept(d, text)) != drafted
            && FirstKept(Apply(drafted, Accept(d, text)).thread) == through + 1
  {
    RunKeeps(states, steps, k);
    var s := states[k];
    DraftStep(s, keepRecent);
    IssuedDrafts(s.thread, DraftNow(s.thread, keepRecent).value);
    FreshAccepted(s.thread, keepRecent, Text.Strip(text));
    AcceptStep(Apply(s, DraftSummary(keepRecent)), |s.thread.drafts|, text);
  }

  // --- Proposals ------------------------------------------------------------------------------

  /** The proposal a tool message shows stands at that message's position; so no two show one. */
  lemma ProposalAtItsMessage(states: seq<State>, steps: seq<Step>, k: nat, i: nat)
    requires Run(states, steps) && k < |states|
    requires i < |states[k].thread.rows| && states[k].thread.rows[i].details.ProposalShown?
    ensures var s, p := states[k], states[k].thread.rows[i].details.proposal;
            && s.thread.rows[i].role == Tool
            && p < |s.desk.proposals| && s.desk.proposals[p].position == i
            && forall j | 0 <= j < |s.thread.rows| && s.thread.rows[j].details == s.thread.rows[i].details :: j == i
  {
    RunKeeps(states, steps, k);
    assert forall j | 0 <= j < |states[k].thread.rows| ::
      ShowsOwn(states[k].thread.rows[j], j, states[k].desk.proposals);
  }

  lemma OtherStepsKeepDesk(s: State, step: Step)
    requires Enabled(s, step) && !step.Propose? && !step.Offer? && !step.Confirm?
    ensures Apply(s, step).desk == s.desk
  {
  }

  lemma ProposeKeepsDesk(s: State, parts: seq<Part>)
    requires DeskSound(s.desk) && Enabled(s, Propose(parts))
    ensures DeskKept(s.desk, Apply(s, Propose(parts)).desk)
  {
    WrittenKept(s.desk, Made(s.desk.proposals, s.thread.rows, parts, |s.thread.rows|, s.turn.value.push));
  }

  lemma OfferKeepsDeskKept(s: State, parts: seq<Part>)
    requires DeskSound(s.desk) && Enabled(s, Offer(parts))
    ensures DeskKept(s.desk, Apply(s, Offer(parts)).desk)
  {
    WrittenKept(s.desk, Made(s.desk.proposals, s.thread.rows, parts, |s.thread.rows| - 1, false));
  }

  lemma ConfirmKeepsDeskKept(s: State, p: nat, asked: seq<int>, accepted: bool)
    ensures DeskKept(s.desk, Apply(s, Confirm(p, asked, accepted)).desk)
  {
    ConfirmedKept(s.desk, p, asked, accepted);
  }

  lemma SameDeskKept(desk: Desk)
    ensures DeskKept(desk, desk)
  {
  }

  lemma StepKeepsDesk(s: State, step: Step)
    requires DeskSound(s.desk) && Enabled(s, step)
    ensures DeskKept(s.desk, Apply(s, step).desk)
  {
    if step.Propose? {
      ProposeKeepsDesk(s, step.parts);
    } else if step.Offer? {
      OfferKeepsDeskKept(s, step.parts);
    } else if step.Confirm? {
      ConfirmKeepsDeskKept(s, step.proposal, step.asked, step.accepted);
    } else {
      OtherStepsKeepDesk(s, step);
      SameDeskKept(s.desk);
    }
  }

  /** Over any stretch of a run, every proposal keeps its place and raw text; a part gets a thought
      at most once and keeps it; and the proposal that replaces one is set at most once. */
  lemma {:induction false} ProposalsKept(states: seq<State>, steps: seq<Step>, j: nat, k: nat)
    requires Run(states, steps) && j <= k < |states|
    ensures DeskKept(states[j].desk, states[k].desk)
    decreases k - j
  {
    if j == k {
    } else {
      ProposalsKept(states, steps, j, k - 1);
      RunKeeps(states, steps, k - 1);
      StepKeepsDesk(states[k - 1], steps[k - 1]);
      DeskKeptJoins(states[j].desk, states[k - 1].desk, states[k].desk);
    }
  }

  /** In every state: the held proposal is the last one written while it has an unsaved part; a
      replaced one is replaced by the next; two parts of a proposal share a thought only when all
      do; and the thoughts saved from it are its parts' distinct ones. */
  lemma ProposalLifecycle(states: seq<State>, steps: seq<Step>, k: nat, p: nat)
    requires Run(states, steps) && k < |states| && p < |states[k].desk.proposals|
    ensures var desk := states[k].desk;
            && desk.held == ShouldHold(desk.proposals)
            && (desk.proposals[p].replacedBy.Some? ==>
                  desk.proposals[p].replacedBy == Some(p + 1) && p + 1 < |desk.proposals|)
            && Merged(desk.proposals[p].parts)
            && (set t: nat | t < |desk.thoughts| && desk.thoughts[t] == p) ==
               (set i | 0 <= i < |desk.proposals[p].parts| && desk.proposals[p].parts[i].thought.Some? ::
                  desk.proposals[p].parts[i].thought.value)
  {
    RunKeeps(states, steps, k);
    ThoughtsOfProposal(states[k].desk, p);
  }

  /** A confirm repeated at any later time answers the thought that the first one answered and stores nothing. */
  lemma ConfirmIsIdempotent(states: seq<State>, steps: seq<Step>, j: nat, k: nat, p: nat, asked: seq<int>,
                            accepted: bool, fields: bool)
    requires Run(states, steps) && j < k < |states| && steps[j] == Confirm(p, asked, accepted)
    requires Answered(states[j].desk, p, asked, accepted).Saved?
    ensures Answered(states[k].desk, p, asked, fields) == Answered(states[j].desk, p, asked, accepted)
    ensures Apply(states[k], Confirm(p, asked, fields)) == states[k]
  {
    RunKeeps(states, steps, j);
    ProposalsKept(states, steps, j + 1, k);
    RepeatedConfirm(states[j].desk, p, asked, accepted, states[k].desk, fields);
  }

  /** If the user wrote anything since the last proposal with a saved part, a proposal made now
      keeps raw text from after every proposal with a saved part, and never too much of it. */
  lemma NewTextOnly(states: seq<State>, steps: seq<Step>, k: nat, parts: seq<Part>, position: nat, push: bool, p: nat)
    requires Run(states, steps) && k < |states| && HasUser(states[k].thread.rows)
    requires p < |states[k].desk.proposals| && HasSaved(states[k].desk.proposals[p].parts)
    requires exists i: nat | i < |states[k].thread.rows| ::
               Says(states[k].thread.rows, DiscussionStart(states[k].desk.proposals), i)
    ensures var made := Made(states[k].desk.proposals, states[k].thread.rows, parts, position, push);
            states[k].desk.proposals[p].to < made.from && |made.rawText| <= MAX_RAW_TEXT
  {
    RunKeeps(states, steps, k);
    var i: nat :| i < |states[k].thread.rows|
      && Says(states[k].thread.rows, DiscussionStart(states[k].desk.proposals), i);
    RawTextAfterSaved(states[k].desk.proposals, states[k].thread.rows, parts, position, push, p, i);
  }

  /** Just after the last message of the latest saved proposal, or at the first message. */
  predicate StartsAfterSaved(start: nat, proposals: seq<Proposal>) {
    && (forall p | 0 <= p < |proposals| && HasSaved(proposals[p].parts) :: proposals[p].to < start)
    && (start == 0 || exists p :: 0 <= p < |proposals| && HasSaved(proposals[p].parts) && start == proposals[p].to + 1)
  }

  /** A proposal just written: the model's parts, at its place, with what it keeps of the user's messages. */
  predicate WrittenFrom(made: Proposal, rows: seq<Message>, start: nat, parts: seq<Part>, position: nat, push: bool) {
    && made.parts == parts && made.position == position && made.replacedBy == None
    && KeepsText(rows, start, push, RawText(made.rawText, made.from, made.to))
  }

  /** The proposal that a step of a run writes, by a tool call or on request: it is held, and keeps
      what the user said after the latest saved one, as much as fits, or for /push the message that asked. */
  lemma ProposalWritten(states: seq<State>, steps: seq<Step>, k: nat) returns (start: nat)
    requires Run(states, steps) && k < |steps| && (steps[k].Propose? || steps[k].Offer?)
    ensures StartsAfterSaved(start, states[k].desk.proposals)
    ensures WritesProposal(states[k], steps[k], states[k + 1].desk, start)
  {
    RunKeeps(states, steps, k);
    if steps[k].Propose? {
      start := ProposeWrites(states[k], steps[k].parts);
    } else {
      start := OfferWrites(states[k], steps[k].parts);
    }
  }

  /** The desk has one more proposal, which it holds, made from this state by the step; the one it held
      before, if any, is replaced by it, and no other changes. */
  predicate WritesProposal(s: State, step: Step, after: Desk, start: nat) {
    && |after.proposals| == |s.desk.proposals| + 1 && after.held == Some(|s.desk.proposals|)
    && after.thoughts == s.desk.thoughts
    && (forall p | 0 <= p < |s.desk.proposals| ::
          after.proposals[p] ==
          if s.desk.held == Some(p) then s.desk.proposals[p].(replacedBy := Some(|s.desk.proposals|))
          else s.desk.proposals[p])
    && var made, rows := after.proposals[|s.desk.proposals|], s.thread.rows;
    match step
    case Propose(parts) => s.turn.Some? && WrittenFrom(made, rows, start, parts, |rows|, s.turn.value.push)
    case Offer(parts) => rows != [] && WrittenFrom(made, rows, start, parts, |rows| - 1, false)
    case _ => false
  }

  lemma WrittenReplaces(desk: Desk, made: Proposal)
    requires DeskSound(desk)
    ensures var after := Written(desk, made);
            && |after.proposals| == |desk.proposals| + 1 && after.proposals[|desk.proposals|] == made
            && after.held == Some(|desk.proposals|)
            && forall p | 0 <= p < |desk.proposals| ::
                 after.proposals[p] ==
                 if desk.held == Some(p) then desk.proposals[p].(replacedBy := Some(|desk.proposals|))
                 else desk.proposals[p]
  {
    ReplacesLast(desk);
  }

  lemma MadeKeeps(desk: Desk, rows: seq<Message>, parts: seq<Part>, position: nat, push: bool)
      returns (start: nat)
    requires InOrder(desk.proposals) && HasUser(rows)
    ensures StartsAfterSaved(start, desk.proposals)
    ensures WrittenFrom(Made(desk.proposals, rows, parts, position, push), rows, start, parts, position, push)
  {
    start := DiscussionStart(desk.proposals);
    DiscussionStartMeaning(desk.proposals);
    RawTextMeaning(rows, start, push);
  }

  lemma ProposeWrites(s: State, parts: seq<Part>) returns (start: nat)
    requires DeskSound(s.desk) && InOrder(s.desk.proposals) && Enabled(s, Propose(parts))
    ensures StartsAfterSaved(start, s.desk.proposals)
    ensures WritesProposal(s, Propose(parts), Apply(s, Propose(parts)).desk, start)
  {
    start := MadeKeeps(s.desk, s.thread.rows, parts, |s.thread.rows|, s.turn.value.push);
    WrittenReplaces(s.desk, Made(s.desk.proposals, s.thread.rows, parts, |s.thread.rows|, s.turn.value.push));
  }

  lemma OfferWrites(s: State, parts: seq<Part>) returns (start: nat)
    requires DeskSound(s.desk) && InOrder(s.desk.proposals) && Enabled(s, Offer(parts))
    ensures StartsAfterSaved(start, s.desk.proposals)
    ensures WritesProposal(s, Offer(parts), Apply(s, Offer(parts)).desk, start)
  {
    start := MadeKeeps(s.desk, s.thread.rows, parts, |s.thread.rows| - 1, false);
    WrittenReplaces(s.desk, Made(s.desk.proposals, s.thread.rows, parts, |s.thread.rows| - 1, false));
  }

  /** The browser is told of the proposal that a call makes, and of the one that it replaces. */
  lemma ProposalIsTold(states: seq<State>, steps: seq<Step>, k: nat)
    requires Run(states, steps) && k < |steps| && steps[k].Propose?
    ensures states[k].turn.Some? && states[k + 1].turn.Some?
    ensures var desk, rows := states[k].desk, states[k].thread.rows;
            states[k + 1].turn.value.events ==
            states[k].turn.value.events + [Shown(|desk.proposals|, |rows|, steps[k].parts, desk.held)]
  {
    RunKeeps(states, steps, k);
    ReplacesLast(states[k].desk);
    ProposeTells(states[k], steps[k].parts);
  }

  lemma ProposeTells(s: State, parts: seq<Part>)
    requires Enabled(s, Propose(parts))
    ensures var after := Apply(s, Propose(parts));
            && after.turn.Some?
            && after.turn.value.events ==
               s.turn.value.events + [Shown(|s.desk.proposals|, |s.thread.rows|, parts, Replaces(s.desk))]
  {
  }

  /** A turn writes its proposal as a push just when its message is a /push command. */
  lemma {:induction false} PushIsOfMessage(states: seq<State>, steps: seq<Step>, k: nat)
    requires Run(states, steps) && k < |states| && states[k].turn.Some?
    ensures var turn, rows := states[k].turn.value, states[k].thread.rows;
            && turn.from < |rows| && rows[turn.from].role == User
            && turn.push == IsPush(OrEmpty(rows[turn.from].content))
  {
    if steps[k - 1].Send? {
      SendIsOfMessage(states[k - 1], steps[k - 1].text, steps[k - 1].limit);
    } else {
      StepKeepsMessage(states[k - 1], steps[k - 1]);
      PushIsOfMessage(states, steps, k - 1);
    }
  }

  lemma SendIsOfMessage(s: State, text: string, limit: nat)
    requires s.turn.None? && limit > 0
    ensures var after := Apply(s, Send(text, limit, true));
            var turn, rows := after.turn.value, after.thread.rows;
            && turn.from < |rows| && rows[turn.from].role == User
            && turn.push == IsPush(OrEmpty(rows[turn.from].content))
  {
  }

  lemma StepKeepsMessage(s: State, step: Step)
    requires Enabled(s, step) && !step.Send? && Apply(s, step).turn.Some?
    ensures s.turn.Some?
    ensures var before, after := s.turn.value, Apply(s, step).turn.value;
            && after.from == before.from && after.push == before.push
            && s.thread.rows <= Apply(s, step).thread.rows
  {
  }

  // --- A proposal left behind ------------------------------------------------------------------

  /** A run and its last state. */
  predicate RunTo(states: seq<State>, steps: seq<Step>, s: State) {
    Run(states, steps) && states[|steps|] == s
  }

  lemma OneMore(states: seq<State>, steps: seq<Step>, s: State, step: Step, after: State)
      returns (longer: seq<State>, more: seq<Step>)
    requires RunTo(states, steps, s) && Enabled(s, step) && after == Apply(s, step)
    ensures RunTo(longer, more, after)
  {
    longer, more := states + [after], steps + [step];
  }

  /** A message sent, its first model call open. */
  lemma AfterSend(states: seq<State>, steps: seq<Step>, s: State, text: string)
      returns (longer: seq<State>, more: seq<Step>, after: State)
    requires RunTo(states, steps, s) && s.turn.None?
    ensures RunTo(longer, more, after)
    ensures after.desk == s.desk && Reading(after) && after.turn.value.shown.None?
    ensures after.thread.compacted == s.thread.compacted
    ensures after.thread.rows != [] && after.thread.rows[|after.thread.rows| - 1].role == User
  {
    after := Apply(s, Send(text, 1, true));
    longer, more := OneMore(states, steps, s, Send(text, 1, true), after);
  }

  lemma AfterClose(states: seq<State>, steps: seq<Step>, s: State)
      returns (longer: seq<State>, more: seq<Step>, after: State)
    requires RunTo(states, steps, s) && s.turn.Some?
    ensures RunTo(longer, more, after) && after == s.(turn := None)
  {
    after := Apply(s, Close);
    longer, more := OneMore(states, steps, s, Close, after);
  }

  lemma AfterOffer(states: seq<State>, steps: seq<Step>, s: State, parts: seq<Part>)
      returns (longer: seq<State>, more: seq<Step>, after: State, made: Proposal)
    requires RunTo(states, steps, s) && s.turn.None? && s.desk == START.desk && s.thread.compacted == {}
    requires NewParts(parts)
    requires s.thread.rows != [] && s.thread.rows[|s.thread.rows| - 1].role == User
    ensures RunTo(longer, more, after) && after.turn.None?
    ensures made.parts == parts && after.desk == Written(START.desk, made)
  {
    var last: nat := |s.thread.rows| - 1;
    assert DiscussionStart(s.desk.proposals) == 0;
    assert last !in s.thread.compacted && Says(s.thread.rows, DiscussionStart(s.desk.proposals), last);
    after := Apply(s, Offer(parts));
    made := Made(s.desk.proposals, s.thread.rows, parts, |s.thread.rows| - 1, false);
    longer, more := OneMore(states, steps, s, Offer(parts), after);
  }

  lemma AfterCall(states: seq<State>, steps: seq<Step>, s: State, call: Call)
      returns (longer: seq<State>, more: seq<Step>, after: State)
    requires RunTo(states, steps, s) && Reading(s) && s.turn.value.shown.None?
    requires s.thread.rows != [] && s.thread.rows[|s.thread.rows| - 1].role == User
    ensures RunTo(longer, more, after)
    ensures after.desk == s.desk && after.turn.Some? && after.turn.value.shown.None? && HasUser(after.thread.rows)
    ensures RunsCall(after, after.turn.value) && CurrentCall(after, after.turn.value) == call
  {
    after := Apply(s, EndRound([call]));
    assert after.thread.rows[|s.thread.rows| - 1].role == User;
    longer, more := OneMore(states, steps, s, EndRound([call]), after);
  }

  lemma AfterPropose(states: seq<State>, steps: seq<Step>, s: State, parts: seq<Part>)
      returns (longer: seq<State>, more: seq<Step>, after: State, made: Proposal)
    requires RunTo(states, steps, s) && s.turn.Some? && s.turn.value.shown.None? && HasUser(s.thread.rows)
    requires NewParts(parts)
    requires RunsCall(s, s.turn.value) && CurrentCall(s, s.turn.value).name == PROPOSE_TOOL
    ensures RunTo(longer, more, after)
    ensures made.parts == parts && after.desk == Written(s.desk, made)
  {
    after := Apply(s, Propose(parts));
    made := Made(s.desk.proposals, s.thread.rows, parts, |s.thread.rows|, s.turn.value.push);
    longer, more := OneMore(states, steps, s, Propose(parts), after);
  }

  lemma AfterConfirm(states: seq<State>, steps: seq<Step>, s: State, p: nat, asked: seq<int>)
      returns (longer: seq<State>, more: seq<Step>, after: State)
    requires RunTo(states, steps, s)
    ensures RunTo(longer, more, after) && after.desk == Confirmed(s.desk, p, asked, true)
  {
    after := Apply(s, Confirm(p, asked, true));
    longer, more := OneMore(states, steps, s, Confirm(p, asked, true), after);
  }

  /** A run that leaves an unsaved proposal behind: one is offered and another proposed in the next
      answer; once that one is saved, none is held, although the first has an unsaved part. */
  lemma UnsavedLeftBehind(part: Part) returns (states: seq<State>, steps: seq<Step>)
    requires part.thought.None?
    ensures Run(states, steps)
    ensures var desk := states[|steps|].desk;
            desk.held == None && desk.proposals != [] && LatestUnsaved(desk.proposals, |desk.proposals|) == Some(0)
  {
    var s, first, second;
    states, steps, s := AfterSend([START], [], START, "a");
    states, steps, s := AfterClose(states, steps, s);
    states, steps, s, first := AfterOffer(states, steps, s, [part]);
    states, steps, s := AfterSend(states, steps, s, "b");
    states, steps, s := AfterCall(states, steps, s, Call("c", PROPOSE_TOOL, ""));
    states, steps, s, second := AfterPropose(states, steps, s, [part]);
    states, steps, s := AfterConfirm(states, steps, s, 1, [0]);
    SavedLastHidesEarlier(first, second, part);
  }
}
