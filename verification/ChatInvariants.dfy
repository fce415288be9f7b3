/** What every step of a conversation keeps. */
module ChatInvariants {
  import opened Wrappers
  import Text
  import opened Messages
  import opened Transcript
  import opened Compactions
  import opened RawText
  import opened Proposals
  import opened Lifecycle
  import opened Discussions
  import opened Chat

  /** A tool row that shows a proposal stands at that proposal's position. */
  predicate ShowsOwn(row: Message, i: nat, proposals: seq<Proposal>) {
    row.details.ProposalShown? ==>
      row.role == Tool && row.details.proposal < |proposals| && proposals[row.details.proposal].position == i
  }

  predicate NamedSound(rows: seq<Message>, proposals: seq<Proposal>) {
    forall i | 0 <= i < |rows| :: ShowsOwn(rows[i], i, proposals)
  }

  predicate FromAnswer(m: Message) {
    m.role == Assistant || m.role == Tool
  }

  /** While calls run: they are those of the row `owner`, its results are the rows since, and both
      the rows and the context are open for the next result. A proposal just made stands where it goes. */
  predicate ToolsSound(rows: seq<Message>, proposals: seq<Proposal>, turn: Turn)
    requires turn.phase.Tools?
  {
    var owner, done, pending := turn.phase.owner, turn.phase.done, turn.phase.pending;
    && turn.from < owner && owner + 1 + done == |rows|
    && rows[owner].role == Assistant && done <= |rows[owner].calls|
    && (forall i | owner < i < |rows| :: rows[i].role == Tool)
    && OpenRows(rows, |rows|) == rows[owner].calls == OpenCalls(turn.context)
    && (pending.Some? ==>
          done < |rows[owner].calls| && pending.value < |proposals| && proposals[pending.value].position == |rows|)
  }

  /** The context in memory is what the stored rows give, apart from system messages. */
  predicate ContextSound(t: Transcript, turn: Turn) {
    && Grouped(turn.context)
    && (turn.phase.Streaming? || turn.phase.Tools? ==>
          Spoken(turn.context) == Converted(t.rows, t.compacted, |t.rows|))
  }

  /** The rows since the user's message are the answer's, and every draft is older. */
  predicate AnswerRows(t: Transcript, from: nat) {
    && from < |t.rows| && t.rows[from].role == User
    && (forall i | from < i < |t.rows| :: FromAnswer(t.rows[i]))
    && (forall d | 0 <= d < |t.drafts| :: t.drafts[d].through <= from)
  }

  predicate TurnSound(t: Transcript, proposals: seq<Proposal>, turn: Turn) {
    && AnswerRows(t, turn.from)
    && turn.rounds < turn.limit
    && ContextSound(t, turn)
    && (turn.phase.Tools? ==> ToolsSound(t.rows, proposals, turn))
  }

  predicate ProposalsPlaced(s: State) {
    && AllPlaced(s.thread.rows, s.desk.proposals)
    && InOrder(s.desk.proposals)
    && NamedSound(s.thread.rows, s.desk.proposals)
  }

  predicate Inv(s: State) {
    && Sound(s.thread)
    && DeskSound(s.desk)
    && ProposalsPlaced(s)
    && (s.turn.Some? ==> TurnSound(s.thread, s.desk.proposals, s.turn.value))
  }

  // --- Storing a row ------------------------------------------------------------------

  lemma {:induction false} ConvertedFrame(rows: seq<Message>, row: Message, compacted: set<nat>, n: nat)
    requires n <= |rows|
    ensures Converted(rows + [row], compacted, n) == Converted(rows, compacted, n)
  {
    if n > 0 {
      ConvertedFrame(rows, row, compacted, n - 1);
      assert Contribution(rows + [row], compacted, n - 1) == Contribution(rows, compacted, n - 1);
    }
  }

  /** A stored row adds to the context what the row says. */
  lemma ConvertedStored(t: Transcript, row: Message, added: seq<ModelMessage>)
    requires |t.rows| !in t.compacted && row.role != Summary
    requires added == match AsModelMessage(row) case None => [] case Some(m) => [m]
    ensures var rows := Stored(t, row).rows;
            Converted(rows, t.compacted, |rows|) == Converted(t.rows, t.compacted, |t.rows|) + added
  {
    var rows := Stored(t, row).rows;
    ConvertedFrame(t.rows, row, t.compacted, |t.rows|);
    assert Contribution(rows, t.compacted, |t.rows|) == added;
  }

  lemma PlacedStored(s: State, row: Message)
    requires ProposalsPlaced(s)
    requires ShowsOwn(row, |s.thread.rows|, s.desk.proposals)
    ensures ProposalsPlaced(s.(thread := Stored(s.thread, row)))
  {
    PlacedWithRow(s.thread.rows, s.desk.proposals, row);
    var rows := Stored(s.thread, row).rows;
    forall i | 0 <= i < |rows|
      ensures ShowsOwn(rows[i], i, s.desk.proposals)
    {
      assert i < |s.thread.rows| ==> ShowsOwn(s.thread.rows[i], i, s.desk.proposals);
    }
  }

  lemma SpokenSnoc(context: seq<ModelMessage>, m: ModelMessage)
    requires !IsSystem(m)
    ensures Spoken(context + [m]) == Spoken(context) + [m]
  {
    SpokenAppend(context, [m]);
    assert Spoken([m]) == [m] + Spoken([]);
  }

  // --- The steps of a turn ---------------------------------------------------------------

  lemma SentKeeps(s: State, text: string)
    requires Inv(s) && s.turn.None?
    ensures Inv(s.(thread := Sent(s.thread, text)))
    ensures var rows := Sent(s.thread, text).rows; rows != [] && rows[|rows| - 1].role == User
  {
    if Sent(s.thread, text) != s.thread {
      StoredKeeps(s.thread, UserRow(text));
      PlacedStored(s, UserRow(text));
    }
  }

  lemma OpenedSound(s: State, text: string, limit: nat)
    requires Inv(s) && s.turn.None? && limit > 0
    requires s.thread.rows != [] && s.thread.rows[|s.thread.rows| - 1].role == User
    ensures TurnSound(s.thread, s.desk.proposals, Opened(s, text, limit))
  {
    SoundKeepsGroups(s.thread);
    BuiltContext(s.thread.rows, s.thread.compacted, HeldParts(s.desk));
    assert forall d | 0 <= d < |s.thread.drafts| :: DraftSound(s.thread.rows, s.thread.drafts[d]);
  }

  lemma AnswerRowsStored(t: Transcript, from: nat, row: Message)
    requires AnswerRows(t, from) && FromAnswer(row)
    ensures AnswerRows(Stored(t, row), from)
  {
  }

  /** A row of the answer stored and added to the context. */
  lemma ContextStored(t: Transcript, turn: Turn, row: Message, m: ModelMessage)
    requires Sound(t) && ContextSound(t, turn) && (turn.phase.Streaming? || turn.phase.Tools?)
    requires row.role != Summary && AsModelMessage(row) == Some(m) && !IsSystem(m)
    requires m.ToolResult? ==> HasCall(OpenCalls(turn.context), m.callId)
    ensures Grouped(turn.context + [m])
    ensures var rows := Stored(t, row).rows; Spoken(turn.context + [m]) == Converted(rows, t.compacted, |rows|)
  {
    ConvertedStored(t, row, [m]);
    GroupedSnoc(turn.context, m);
    SpokenSnoc(turn.context, m);
  }

  lemma ToolsStart(rows: seq<Message>, proposals: seq<Proposal>, row: Message, turn: Turn)
    requires turn.phase == Tools(|rows|, 0, None) && turn.from < |rows|
    requires row.role == Assistant && OpenCalls(turn.context) == row.calls
    ensures ToolsSound(rows + [row], proposals, turn)
  {
  }

  lemma EndRoundKeepsTurn(t: Transcript, proposals: seq<Proposal>, turn: Turn, row: Message, after: Turn)
    requires Sound(t) && TurnSound(t, proposals, turn) && turn.phase.Streaming? && row.calls != []
    requires row == AnswerRow(turn.answer, row.calls, Status.Complete)
    requires after == turn.(phase := Tools(|t.rows|, 0, None),
                            context := turn.context + [AssistantText(turn.answer, row.calls)], answer := "")
    ensures TurnSound(Stored(t, row), proposals, after)
  {
    AnswerRowsStored(t, turn.from, row);
    ContextStored(t, turn, row, AssistantText(turn.answer, row.calls));
    GroupedSnoc(turn.context, AssistantText(turn.answer, row.calls));
    ToolsStart(t.rows, proposals, row, after);
  }

  lemma EndRoundKeeps(s: State, calls: seq<Call>)
    requires Inv(s) && Reading(s) && calls != []
    ensures Inv(AfterCalls(s, s.turn.value, calls))
  {
    var row := AnswerRow(s.turn.value.answer, calls, Status.Complete);
    StoredKeeps(s.thread, row);
    PlacedStored(s, row);
    EndRoundKeepsTurn(s.thread, s.desk.proposals, s.turn.value, row, AfterCalls(s, s.turn.value, calls).turn.value);
  }

  lemma DropKeepsOpen(context: seq<ModelMessage>, held: seq<Part>)
    requires Grouped(context) && OpenCalls(context) != []
    ensures OpenCalls(DropHeldNote(context, held)) == OpenCalls(context)
  {
    var note := HeldNote(Unsaved(held));
    var a, b := WithoutSplits(context, note);
    if held != [] && context != Without(context, note) {
      GroupedSnoc(a, note);
      assert b == [] ==> a + [note] + b == a + [note];
      GroupedWithoutSystem(a, note, b);
    }
  }

  /** A proposal made by a call, or offered: the desk with it is in order. */
  lemma WrittenKeeps(s: State, made: Proposal)
    requires DeskSound(s.desk) && ProposalsPlaced(s) && IsNew(s.thread.rows, made)
    requires forall p | 0 <= p < |s.desk.proposals| :: s.desk.proposals[p].position <= made.position
    ensures DeskSound(Written(s.desk, made)) && ProposalsPlaced(s.(desk := Written(s.desk, made)))
  {
    WrittenSound(s.desk, made);
    WrittenPlaced(s.desk, s.thread.rows, made);
    WrittenNamed(s, made);
  }

  lemma PositionsInRows(rows: seq<Message>, proposals: seq<Proposal>)
    requires AllPlaced(rows, proposals)
    ensures forall p | 0 <= p < |proposals| :: proposals[p].position <= |rows|
  {
    assert forall p | 0 <= p < |proposals| :: Placed(rows, proposals[p]);
  }

  lemma ProposeKeepsTurn(t: Transcript, turn: Turn, before: seq<Proposal>, after: seq<Proposal>, event: Event)
    requires TurnSound(t, before, turn) && turn.phase.Tools? && turn.phase.done < |t.rows[turn.phase.owner].calls|
    requires after != [] && after[|after| - 1].position == |t.rows|
    ensures TurnSound(t, after,
              turn.(phase := turn.phase.(pending := Some(|after| - 1)),
                    context := DropHeldNote(turn.context, turn.note), note := [], shown := Some(|after| - 1),
                    events := turn.events + [event]))
  {
    DropHeldNoteKeeps(turn.context, turn.note);
    DropKeepsOpen(turn.context, turn.note);
  }

  lemma ProposeKeepsState(s: State, made: Proposal, event: Event)
    requires Inv(s) && s.turn.Some? && RunsCall(s, s.turn.value)
    requires IsNew(s.thread.rows, made) && made.position == |s.thread.rows|
    ensures var turn := s.turn.value;
            Inv(State(s.thread, Written(s.desk, made),
                      Some(turn.(phase := turn.phase.(pending := Some(|s.desk.proposals|)),
                                 context := DropHeldNote(turn.context, turn.note), note := [],
                                 shown := Some(|s.desk.proposals|),
                                 events := turn.events + [event]))))
  {
    PositionsInRows(s.thread.rows, s.desk.proposals);
    WrittenKeeps(s, made);
    ProposeKeepsTurn(s.thread, s.turn.value, s.desk.proposals, Written(s.desk, made).proposals, event);
  }

  lemma ProposeKeeps(s: State, parts: seq<Part>)
    requires Inv(s) && s.turn.Some? && RunsCall(s, s.turn.value) && HasUser(s.thread.rows) && NewParts(parts)
    ensures Inv(AfterProposal(s, s.turn.value, parts))
  {
    var turn, rows := s.turn.value, s.thread.rows;
    assert FromAnswer(rows[|rows| - 1]);
    ToolMade(s.desk.proposals, rows, parts, turn.push);
    ProposeKeepsState(s, Made(s.desk.proposals, rows, parts, |rows|, turn.push),
                      Shown(|s.desk.proposals|, |rows|, parts, Replaces(s.desk)));
  }

  lemma WrittenNamed(s: State, made: Proposal)
    requires DeskSound(s.desk) && NamedSound(s.thread.rows, s.desk.proposals)
    ensures NamedSound(s.thread.rows, Written(s.desk, made).proposals)
  {
    WrittenKept(s.desk, made);
    NamedIfKept(s.thread.rows, s.desk, Written(s.desk, made));
  }

  lemma NamedIfKept(rows: seq<Message>, before: Desk, after: Desk)
    requires NamedSound(rows, before.proposals) && DeskKept(before, after)
    ensures NamedSound(rows, after.proposals)
  {
    forall i | 0 <= i < |rows|
      ensures ShowsOwn(rows[i], i, after.proposals)
    {
      assert ShowsOwn(rows[i], i, before.proposals);
      if rows[i].details.ProposalShown? {
        assert ProposalKept(before.proposals[rows[i].details.proposal], after.proposals[rows[i].details.proposal]);
      }
    }
  }

  lemma ToolsContinue(rows: seq<Message>, proposals: seq<Proposal>, row: Message, turn: Turn, after: Turn)
    requires turn.phase.Tools? && ToolsSound(rows, proposals, turn) && turn.phase.done < |rows[turn.phase.owner].calls|
    requires row.role == Tool && after.from == turn.from
    requires after.phase == turn.phase.(done := turn.phase.done + 1, pending := None)
    requires OpenCalls(after.context) == OpenCalls(turn.context)
    ensures ToolsSound(rows + [row], proposals, after)
  {
    OpenRowsFrame(rows, row, |rows|);
  }

  lemma ReturnKeepsTurn(t: Transcript, proposals: seq<Proposal>, turn: Turn, row: Message, m: ModelMessage, after: Turn)
    requires Sound(t) && TurnSound(t, proposals, turn) && turn.phase.Tools?
    requires turn.phase.done < |t.rows[turn.phase.owner].calls|
    requires row.role == Tool && row.callId == t.rows[turn.phase.owner].calls[turn.phase.done].id
    requires m == ToolResult(row.callId, OrEmpty(row.content))
    requires after == turn.(phase := turn.phase.(done := turn.phase.done + 1, pending := None),
                            context := turn.context + [m], events := after.events)
    ensures TurnSound(Stored(t, row), proposals, after)
  {
    assert HasCall(OpenCalls(turn.context), row.callId);
    AnswerRowsStored(t, turn.from, row);
    ContextStored(t, turn, row, m);
    GroupedSnoc(turn.context, m);
    ToolsContinue(t.rows, proposals, row, turn, after);
  }

  lemma ReturnKeepsState(s: State, row: Message, m: ModelMessage, after: Turn)
    requires Inv(s) && s.turn.Some? && RunsCall(s, s.turn.value)
    requires row.role == Tool && row.callId == CurrentCall(s, s.turn.value).id
    requires m == ToolResult(row.callId, OrEmpty(row.content))
    requires row.details.ProposalShown? ==> s.turn.value.phase.pending == Some(row.details.proposal)
    requires var turn := s.turn.value;
             after == turn.(phase := turn.phase.(done := turn.phase.done + 1, pending := None),
                            context := turn.context + [m], events := after.events)
    ensures Inv(State(Stored(s.thread, row), s.desk, Some(after)))
  {
    ReturnKeepsRows(s.thread, s.desk.proposals, s.turn.value, row);
    ReturnKeepsPlaces(s, row);
    ReturnKeepsTurn(s.thread, s.desk.proposals, s.turn.value, row, m, after);
  }

  lemma ReturnKeepsPlaces(s: State, row: Message)
    requires ProposalsPlaced(s) && s.turn.Some? && s.turn.value.phase.Tools?
    requires ToolsSound(s.thread.rows, s.desk.proposals, s.turn.value)
    requires row.role == Tool
    requires row.details.ProposalShown? ==> s.turn.value.phase.pending == Some(row.details.proposal)
    ensures ProposalsPlaced(s.(thread := Stored(s.thread, row)))
  {
    PlacedStored(s, row);
  }

  lemma ReturnKeeps(s: State, content: string, sources: Option<seq<Source>>)
    requires Inv(s) && s.turn.Some? && RunsCall(s, s.turn.value)
    ensures Inv(AfterResult(s, s.turn.value, content, sources))
  {
    var turn := s.turn.value;
    var call := CurrentCall(s, turn);
    ReturnKeepsState(s, ResultRow(call.id, content, DetailsFor(turn, sources)), ToolResult(call.id, content),
                     AfterResult(s, turn, content, sources).turn.value);
  }

  lemma ReturnKeepsRows(t: Transcript, proposals: seq<Proposal>, turn: Turn, row: Message)
    requires Sound(t) && TurnSound(t, proposals, turn) && turn.phase.Tools?
    requires turn.phase.done < |t.rows[turn.phase.owner].calls|
    requires row.role == Tool && row.callId == t.rows[turn.phase.owner].calls[turn.phase.done].id
    ensures Sound(Stored(t, row))
  {
    assert HasCall(t.rows[turn.phase.owner].calls, row.callId);
    StoredKeeps(t, row);
  }

  /** A row stored while the turn ends, which no context takes in. */
  lemma LastRowKeepsTurn(t: Transcript, proposals: seq<Proposal>, turn: Turn, row: Message, ended: Turn)
    requires TurnSound(t, proposals, turn) && FromAnswer(row)
    requires ended.phase.Settled? || ended.phase.Over?
    requires ended == turn.(phase := ended.phase, answer := ended.answer)
    ensures TurnSound(Stored(t, row), proposals, ended)
  {
  }

  lemma FailureKeeps(s: State, turn: Turn, status: Status, code: string, ending: Ending)
    requires Inv(s) && s.turn.Some? && TurnSound(s.thread, s.desk.proposals, turn)
    ensures Inv(AfterFailure(s, turn, status, code, ending))
  {
    var row := AnswerRow(turn.answer, [], status);
    StoredKeeps(s.thread, row);
    PlacedStored(s, row);
    ErrorKeeps(Stored(s.thread, row), |s.thread.rows|, code);
    LastRowKeepsTurn(s.thread, s.desk.proposals, turn, row, Ended(turn, ending));
  }

  lemma FinishKeeps(s: State, truncated: bool)
    requires Inv(s) && Reading(s)
    ensures Inv(AfterLast(s, s.turn.value, truncated))
  {
    var turn := s.turn.value;
    if truncated || Text.IsBlank(turn.answer) {
      FailureKeeps(s, Told(turn, Failure(OutputLimitReached(Text.IsBlank(turn.answer)))), Status.Cut,
                   OUTPUT_LIMIT, CutOff);
    } else {
      var row := AnswerRow(turn.answer, [], Status.Complete);
      StoredKeeps(s.thread, row);
      PlacedStored(s, row);
      LastRowKeepsTurn(s.thread, s.desk.proposals, turn, row, turn.(phase := Settled, answer := ""));
    }
  }

  /** A turn keeps its invariant when it only tells an event or ends. */
  lemma ToldKeepsTurn(t: Transcript, proposals: seq<Proposal>, turn: Turn, after: Turn)
    requires TurnSound(t, proposals, turn)
    requires after.phase == turn.phase || after.phase.Settled? || after.phase.Over?
    requires after == turn.(phase := after.phase, answer := after.answer, events := after.events)
    ensures TurnSound(t, proposals, after)
  {
  }

  lemma AgainKeepsTurn(t: Transcript, proposals: seq<Proposal>, turn: Turn)
    requires TurnSound(t, proposals, turn) && turn.phase.Tools? && turn.rounds + 1 < turn.limit
    ensures TurnSound(t, proposals, turn.(rounds := turn.rounds + 1, phase := Streaming))
  {
  }

  lemma ErrorKeepsTurn(t: Transcript, proposals: seq<Proposal>, turn: Turn, i: nat, code: string)
    requires TurnSound(t, proposals, turn)
    ensures TurnSound(WithError(t, i, code), proposals, turn)
  {
  }

  lemma NextRoundKeeps(s: State)
    requires Inv(s) && RoundDone(s)
    ensures Inv(AfterRound(s, s.turn.value))
  {
    var turn := s.turn.value;
    if turn.rounds + 1 < turn.limit {
      AgainKeepsTurn(s.thread, s.desk.proposals, turn);
    } else {
      ErrorKeeps(s.thread, turn.phase.owner, LOOP_LIMIT);
      ErrorKeepsTurn(s.thread, s.desk.proposals, turn, turn.phase.owner, LOOP_LIMIT);
      ToldKeepsTurn(WithError(s.thread, turn.phase.owner, LOOP_LIMIT), s.desk.proposals, turn,
                    Ended(Told(turn, Failure(ToolLoopLimit())), AtLimit));
    }
  }

  // --- The steps between turns, and confirms ------------------------------------------------

  lemma DraftKeeps(s: State, keepRecent: nat)
    requires Inv(s) && s.turn.None? && DraftNow(s.thread, keepRecent).Some?
    ensures Inv(s.(thread := Issued(s.thread, DraftNow(s.thread, keepRecent).value)))
  {
    IssuedKeeps(s.thread, keepRecent);
  }

  lemma AcceptKeeps(s: State, d: nat, text: string)
    requires Inv(s) && s.turn.None? && d < |s.thread.drafts| && Accepted(s.thread, d, text).Some?
    ensures Inv(s.(thread := Accepted(s.thread, d, text).value))
  {
    AcceptedKeeps(s.thread, d, text);
    PlacedStored(s, SummaryRow(text));
  }

  lemma OfferedPositions(s: State)
    requires DeskSound(s.desk) && ProposalsPlaced(s) && HeldParts(s.desk) == [] && SaidSinceSaved(s)
    ensures forall p | 0 <= p < |s.desk.proposals| :: s.desk.proposals[p].position <= |s.thread.rows| - 1
  {
    var start := DiscussionStart(s.desk.proposals);
    var i: nat :| i < |s.thread.rows| && i !in s.thread.compacted && Says(s.thread.rows, start, i);
    OfferedAfterAll(s.desk, s.thread.rows, i);
  }

  lemma OfferKeepsDesk(s: State, made: Proposal)
    requires Inv(s) && s.turn.None? && IsNew(s.thread.rows, made) && made.position == |s.thread.rows| - 1
    requires HeldParts(s.desk) == [] && SaidSinceSaved(s)
    ensures Inv(s.(desk := Written(s.desk, made)))
  {
    OfferedPositions(s);
    WrittenKeeps(s, made);
  }

  lemma OfferKeeps(s: State, parts: seq<Part>)
    requires Inv(s) && Enabled(s, Offer(parts))
    ensures Inv(Apply(s, Offer(parts)))
  {
    var made := OfferedNow(s.thread.rows, s.desk, parts);
    assert Apply(s, Offer(parts)) == s.(desk := Written(s.desk, made));
    OfferKeepsDesk(s, made);
  }

  lemma OfferedNow(rows: seq<Message>, desk: Desk, parts: seq<Part>) returns (made: Proposal)
    requires HasUser(rows) && NewParts(parts)
    ensures made == Made(desk.proposals, rows, parts, |rows| - 1, false)
    ensures IsNew(rows, made) && made.position == |rows| - 1
  {
    OfferedMade(desk.proposals, rows, parts);
    made := Made(desk.proposals, rows, parts, |rows| - 1, false);
  }

  lemma PendingKept(t: Transcript, turn: Turn, before: Desk, after: Desk)
    requires TurnSound(t, before.proposals, turn) && DeskKept(before, after)
    ensures TurnSound(t, after.proposals, turn)
  {
    if turn.phase.Tools? && turn.phase.pending.Some? {
      var p := turn.phase.pending.value;
      assert ProposalKept(before.proposals[p], after.proposals[p]);
    }
  }

  lemma ConfirmKeepsDesk(s: State, p: nat, asked: seq<int>, accepted: bool)
    requires DeskSound(s.desk) && ProposalsPlaced(s)
    ensures var desk := Confirmed(s.desk, p, asked, accepted);
            DeskSound(desk) && ProposalsPlaced(s.(desk := desk)) && DeskKept(s.desk, desk)
  {
    ConfirmedSound(s.desk, p, asked, accepted);
    ConfirmedKept(s.desk, p, asked, accepted);
    ConfirmedPlaced(s.desk, s.thread.rows, p, asked, accepted);
    NamedIfKept(s.thread.rows, s.desk, Confirmed(s.desk, p, asked, accepted));
  }

  lemma ConfirmKeeps(s: State, p: nat, asked: seq<int>, accepted: bool)
    requires Inv(s)
    ensures Inv(s.(desk := Confirmed(s.desk, p, asked, accepted)))
  {
    ConfirmKeepsDesk(s, p, asked, accepted);
    if s.turn.Some? {
      PendingKept(s.thread, s.turn.value, s.desk, Confirmed(s.desk, p, asked, accepted));
    }
  }

  // --- Every step, every run -------------------------------------------------------------

  lemma SendKeeps(s: State, text: string, limit: nat, reached: bool)
    requires Inv(s) && Enabled(s, Send(text, limit, reached))
    ensures Inv(Apply(s, Send(text, limit, reached)))
  {
    SentKeeps(s, text);
    OpenedSound(s.(thread := Sent(s.thread, text)), text, limit);
  }

  lemma TellingKeeps(s: State, after: Turn)
    requires Inv(s) && s.turn.Some?
    requires after.phase == s.turn.value.phase || after.phase.Over?
    requires after == s.turn.value.(phase := after.phase, answer := after.answer, events := after.events)
    ensures Inv(s.(turn := Some(after)))
  {
    ToldKeepsTurn(s.thread, s.desk.proposals, s.turn.value, after);
  }

  /** What a turn does with rows, calls and rounds. */
  lemma TurnStepKeeps(s: State, step: Step)
    requires Inv(s) && Enabled(s, step)
    requires step.Send? || step.EndRound? || step.Propose? || step.Return? || step.NextRound?
    ensures Inv(Apply(s, step))
  {
    match step
    case Send(text, limit, reached) => SendKeeps(s, text, limit, reached);
    case EndRound(calls) => EndRoundKeeps(s, calls);
    case Propose(parts) => ProposeKeeps(s, parts);
    case Return(content, sources) => ReturnKeeps(s, content, sources);
    case NextRound => NextRoundKeeps(s);
  }

  /** How a turn ends. */
  lemma EndingKeeps(s: State, step: Step)
    requires Inv(s) && Enabled(s, step) && (step.Finish? || step.Break? || step.Close?)
    ensures Inv(Apply(s, step))
  {
    match step
    case Finish(truncated) => FinishKeeps(s, truncated);
    case Break(fault) => FailureKeeps(s, Told(s.turn.value, Failure(fault)), Failed, fault.code, BrokeOff);
    case Close =>
  }

  /** What a turn tells the browser, and no more. */
  lemma ToldKeeps(s: State, step: Step)
    requires Inv(s) && Enabled(s, step)
    requires step.ReadText? || step.NameTool? || step.Report? || step.SayDone? || step.Stop?
    ensures Inv(Apply(s, step))
  {
    TellingKeeps(s, Apply(s, step).turn.value);
  }

  lemma DraftStepKeeps(s: State, keepRecent: nat)
    requires Inv(s) && Enabled(s, DraftSummary(keepRecent))
    ensures Inv(Apply(s, DraftSummary(keepRecent)))
  {
    if DraftNow(s.thread, keepRecent).Some? {
      DraftKeeps(s, keepRecent);
    }
  }

  lemma AcceptStepKeeps(s: State, draft: nat, text: string)
    requires Inv(s) && Enabled(s, Accept(draft, text))
    ensures Inv(Apply(s, Accept(draft, text)))
  {
    if Accepted(s.thread, draft, Text.Strip(text)).Some? {
      AcceptKeeps(s, draft, Text.Strip(text));
    }
  }

  /** What happens between turns. */
  lemma IdleStepKeeps(s: State, step: Step)
    requires Inv(s) && Enabled(s, step) && (step.DraftSummary? || step.Accept? || step.Offer? || step.Confirm?)
    ensures Inv(Apply(s, step))
  {
    match step
    case DraftSummary(keepRecent) => DraftStepKeeps(s, keepRecent);
    case Accept(draft, text) => AcceptStepKeeps(s, draft, text);
    case Offer(parts) => OfferKeeps(s, parts);
    case Confirm(p, asked, accepted) => ConfirmKeeps(s, p, asked, accepted);
  }

  /** Every step of a conversation keeps its invariant. */
  lemma StepKeeps(s: State, step: Step)
    requires Inv(s) && Enabled(s, step)
    ensures Inv(Apply(s, step))
  {
    if step.Send? || step.EndRound? || step.Propose? || step.Return? || step.NextRound? {
      TurnStepKeeps(s, step);
    } else if step.Finish? || step.Break? || step.Close? {
      EndingKeeps(s, step);
    } else if step.DraftSummary? || step.Accept? || step.Offer? || step.Confirm? {
      IdleStepKeeps(s, step);
    } else {
      ToldKeeps(s, step);
    }
  }

  lemma {:induction false} RunKeeps(states: seq<State>, steps: seq<Step>, k: nat)
    requires Run(states, steps) && k < |states|
    ensures Inv(states[k])
  {
    if k == 0 {
    } else {
      RunKeeps(states, steps, k - 1);
      StepKeeps(states[k - 1], steps[k - 1]);
    }
  }
}
