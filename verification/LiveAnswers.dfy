/** The answer as its events arrive, against the rows its turn has stored. */
module LiveAnswers {
  import opened Wrappers
  import Text
  import opened Messages
  import opened Transcript
  import opened Compactions
  import opened RawText
  import opened Proposals
  import opened Lifecycle
  import opened Discussions
  import opened Chat
  import opened ChatInvariants
  import opened Screen

  /** What a tool row adds to its answer. */
  function WithOwnResult(view: View, row: Message): View {
    View(view.text,
         if row.details.Sources? then WithSources(view.sources, row.details.sources) else view.sources,
         if row.details.ProposalShown? then view.cards + [row.details.proposal] else view.cards,
         view.shape, view.error)
  }

  /** The answer that the rows after `from`, of the first n, give. */
  function AnswerView(t: Transcript, from: nat, n: nat): View
    requires from < n <= |t.rows|
  {
    if n == from + 1 then BLANK.(shape := Finished)
    else
      var before, row := AnswerView(t, from, n - 1), t.rows[n - 1];
      if row.role == Assistant then WithRow(before, row, ErrorAt(t.errors, n - 1)) else WithOwnResult(before, row)
  }

  function StoredView(t: Transcript, from: nat): View
    requires from < |t.rows|
  {
    AnswerView(t, from, |t.rows|)
  }

  /** A stored row names the proposal. */
  predicate IsNamed(rows: seq<Message>, proposals: seq<Proposal>, p: nat) {
    && p < |proposals| && proposals[p].position < |rows|
    && rows[proposals[p].position].details == ProposalShown(p)
  }

  function Listing(shown: Option<nat>): seq<nat> {
    match shown
    case Some(p) => [p]
    case None => []
  }

  /** How both views say the turn stands. */
  predicate ShapesSound(phase: Phase, live: View, stored: View) {
    match phase
    case Over(Whole) => live.shape == Finished && live.error == None && stored.shape == Finished && stored.error == None
    case Over(Stopped) => live.shape == Broken && live.error.Some? && stored.shape == Finished && stored.error == None
    case Over(ending) =>
      && live.shape == Broken && stored.shape == Broken && live.error.Some?
      && stored.error == Some(Unfinished(live.error.value.code))
      && (live.error == stored.error ==> ending == BrokeOff)
    case _ => live.shape == Streamed && live.error == None && stored.shape == Finished && stored.error == None
  }

  /** The events show what the rows hold, and the text of the round being read besides. */
  predicate TextSound(turn: Turn, live: View, stored: View) {
    && live.text == stored.text + turn.answer
    && live.sources == stored.sources
    && ShapesSound(turn.phase, live, stored)
    && (turn.answer != "" ==> turn.phase.Streaming? || turn.phase == Over(Stopped))
  }

  /** The turn's proposal is the only one since the user's message; its row, once stored, names it. */
  predicate CardsSound(rows: seq<Message>, proposals: seq<Proposal>, turn: Turn, live: View, stored: View) {
    && live.cards == Listing(turn.shown)
    && (forall q | 0 <= q < |proposals| && proposals[q].position > turn.from :: turn.shown == Some(q))
    && match turn.shown
       case None => stored.cards == [] && (turn.phase.Tools? ==> turn.phase.pending.None?)
       case Some(p) =>
         && p < |proposals| && proposals[p].position > turn.from
         && stored.cards == (if IsNamed(rows, proposals, p) then [p] else [])
         && (|| IsNamed(rows, proposals, p)
             || turn.phase == Over(Stopped)
             || (turn.phase.Tools? && turn.phase.pending == Some(p)))
         && (turn.phase.Tools? && turn.phase.pending.Some? ==>
               turn.phase.pending == Some(p) && !IsNamed(rows, proposals, p))
  }

  predicate LiveSound(t: Transcript, proposals: seq<Proposal>, turn: Turn)
    requires turn.from < |t.rows|
  {
    var live, stored := OnScreen(turn.events), StoredView(t, turn.from);
    && TextSound(turn, live, stored) && CardsSound(t.rows, proposals, turn, live, stored)
    && (turn.phase.Settled? || turn.phase == Over(Whole) ==> turn.from + 1 < |t.rows|)
  }

  predicate LiveInv(s: State) {
    s.turn.Some? ==> s.turn.value.from < |s.thread.rows| && LiveSound(s.thread, s.desk.proposals, s.turn.value)
  }

  // --- Frames --------------------------------------------------------------------------------

  lemma LiveSnoc(events: seq<Event>, event: Event)
    ensures OnScreen(events + [event]) == WithEvent(OnScreen(events), event)
  {
    assert (events + [event])[..|events|] == events;
  }

  lemma {:induction false} AnswerViewFrame(t: Transcript, u: Transcript, from: nat, n: nat)
    requires from < n <= |t.rows| && t.rows <= u.rows
    requires forall i: nat | i < n :: ErrorAt(t.errors, i) == ErrorAt(u.errors, i)
    ensures AnswerView(u, from, n) == AnswerView(t, from, n)
  {
    if n > from + 1 {
      AnswerViewFrame(t, u, from, n - 1);
    }
  }

  /** The view with one more row of the answer. */
  lemma StoredViewSnoc(t: Transcript, from: nat, row: Message)
    requires from < |t.rows| && ErrorsSound(t)
    ensures StoredView(Stored(t, row), from) ==
            if row.role == Assistant then WithRow(StoredView(t, from), row, None)
              else WithOwnResult(StoredView(t, from), row)
  {
    AnswerViewFrame(t, Stored(t, row), from, |t.rows|);
  }

  lemma StoredViewFailed(t: Transcript, from: nat, row: Message, code: string)
    requires from < |t.rows| && row.role == Assistant
    ensures StoredView(WithError(Stored(t, row), |t.rows|, code), from) == WithRow(StoredView(t, from), row, Some(code))
  {
    AnswerViewFrame(t, WithError(Stored(t, row), |t.rows|, code), from, |t.rows|);
  }

  /** An error noted on the last assistant row shows on the answer. */
  lemma {:induction false} StoredViewLimited(t: Transcript, from: nat, owner: nat, code: string, n: nat)
    requires from < owner < n <= |t.rows| && t.rows[owner].role == Assistant
    requires forall i | owner < i < |t.rows| :: t.rows[i].role == Tool
    ensures AnswerView(WithError(t, owner, code), from, n) ==
            AnswerView(t, from, n).(shape := Broken, error := Some(Unfinished(code)))
    decreases n
  {
    var u := WithError(t, owner, code);
    if n == owner + 1 {
      AnswerViewFrame(t, u, from, owner);
    } else {
      StoredViewLimited(t, from, owner, code, n - 1);
    }
  }

  // --- The steps of a turn ------------------------------------------------------------------

  /** A turn just opened: nothing shown, nothing stored, and every proposal older than it. */
  lemma OpenedLive(s: State, text: string, limit: nat)
    requires AllPlaced(s.thread.rows, s.desk.proposals) && s.thread.rows != []
    requires s.thread.rows[|s.thread.rows| - 1].role == User
    ensures LiveSound(s.thread, s.desk.proposals, Opened(s, text, limit))
  {
    forall q | 0 <= q < |s.desk.proposals|
      ensures s.desk.proposals[q].position <= |s.thread.rows| - 1
    {
      assert Placed(s.thread.rows, s.desk.proposals[q]);
    }
  }

  /** An event that shows no proposal, and changes the turn's text or end accordingly. */
  lemma ToldLive(t: Transcript, proposals: seq<Proposal>, turn: Turn, event: Event, after: Turn)
    requires turn.from < |t.rows| && LiveSound(t, proposals, turn)
    requires event.Delta? || event.ToolStarted? || event.Reported? || event.Done? || event.Failure?
    requires after == turn.(events := turn.events + [event], answer := after.answer, phase := after.phase)
    requires TextSound(after, OnScreen(after.events), StoredView(t, turn.from))
    requires || after.phase == turn.phase
             || after.phase == Over(Stopped)
             || (after.phase == Over(Whole) && turn.phase.Settled?)
    ensures LiveSound(t, proposals, after)
  {
    LiveSnoc(turn.events, event);
  }

  lemma ReadLive(t: Transcript, proposals: seq<Proposal>, turn: Turn, text: string)
    requires turn.from < |t.rows| && LiveSound(t, proposals, turn) && turn.phase.Streaming?
    ensures LiveSound(t, proposals, Told(turn, Delta(text)).(answer := turn.answer + text))
  {
    LiveSnoc(turn.events, Delta(text));
    Assoc(StoredView(t, turn.from).text, turn.answer, text);
    ToldLive(t, proposals, turn, Delta(text), Told(turn, Delta(text)).(answer := turn.answer + text));
  }

  lemma QuietLive(t: Transcript, proposals: seq<Proposal>, turn: Turn, event: Event)
    requires turn.from < |t.rows| && LiveSound(t, proposals, turn)
    requires event.ToolStarted? || event.Reported?
    ensures LiveSound(t, proposals, Told(turn, event))
  {
    LiveSnoc(turn.events, event);
    ToldLive(t, proposals, turn, event, Told(turn, event));
  }

  lemma StopLive(t: Transcript, proposals: seq<Proposal>, turn: Turn, fault: Fault)
    requires turn.from < |t.rows| && LiveSound(t, proposals, turn) && !turn.phase.Over?
    ensures LiveSound(t, proposals, Told(turn, Failure(fault)).(phase := Over(Stopped)))
  {
    LiveSnoc(turn.events, Failure(fault));
    ToldLive(t, proposals, turn, Failure(fault), Told(turn, Failure(fault)).(phase := Over(Stopped)));
  }

  lemma DoneLive(t: Transcript, proposals: seq<Proposal>, turn: Turn)
    requires turn.from < |t.rows| && LiveSound(t, proposals, turn) && turn.phase.Settled?
    ensures LiveSound(t, proposals, Ended(Told(turn, Done), Whole))
  {
    LiveSnoc(turn.events, Done);
    ToldLive(t, proposals, turn, Done, Ended(Told(turn, Done), Whole));
  }

  lemma NamedFrame(rows: seq<Message>, row: Message, proposals: seq<Proposal>, p: nat)
    requires p < |proposals| && proposals[p].position <= |rows|
    ensures IsNamed(rows + [row], proposals, p) <==>
            IsNamed(rows, proposals, p) || (proposals[p].position == |rows| && row.details == ProposalShown(p))
  {
  }

  lemma EndRoundLive(t: Transcript, proposals: seq<Proposal>, turn: Turn, row: Message, after: Turn)
    requires Sound(t) && AllPlaced(t.rows, proposals) && turn.from < |t.rows|
    requires LiveSound(t, proposals, turn) && turn.phase.Streaming?
    requires row == AnswerRow(turn.answer, row.calls, Status.Complete)
    requires after == turn.(phase := after.phase, context := after.context, answer := "")
    requires after.phase == Tools(|t.rows|, 0, None) || after.phase == Settled
    ensures LiveSound(Stored(t, row), proposals, after)
  {
    StoredViewSnoc(t, turn.from, row);
    CardsFrame(t.rows, row, proposals, turn, after);
  }

  lemma CardsFrame(rows: seq<Message>, row: Message, proposals: seq<Proposal>, turn: Turn, after: Turn)
    requires AllPlaced(rows, proposals) && !row.details.ProposalShown?
    requires turn.phase.Streaming? && after.shown == turn.shown && after.from == turn.from
    requires after.phase.Tools? ==> after.phase.pending.None?
    ensures forall live: View, stored: View ::
              CardsSound(rows, proposals, turn, live, stored) ==>
                CardsSound(rows + [row], proposals, after, live, stored)
  {
    if turn.shown.Some? && turn.shown.value < |proposals| {
      assert Placed(rows, proposals[turn.shown.value]);
      NamedFrame(rows, row, proposals, turn.shown.value);
    }
  }

  /** The limits' messages are not the one shown on a reopened answer. */
  lemma LimitMessages()
    ensures forall b :: OutputLimitReached(b) != Unfinished(OUTPUT_LIMIT)
    ensures ToolLoopLimit() != Unfinished(LOOP_LIMIT)
  {
    assert |DID_NOT_FINISH| == 12 && |THOUGHT_ONLY| == 9 && |OUT_OF_ROOM| == 11 && |KEPT_USING_TOOLS| == 6;
  }

  lemma FailureLive(t: Transcript, proposals: seq<Proposal>, turn: Turn, row: Message, fault: Fault, after: Turn)
    requires Sound(t) && AllPlaced(t.rows, proposals) && turn.from < |t.rows|
    requires LiveSound(t, proposals, turn) && turn.phase.Streaming?
    requires row == AnswerRow(turn.answer, [], row.status)
    requires after == turn.(phase := after.phase, answer := "", events := turn.events + [Failure(fault)])
    requires after.phase == Over(BrokeOff) || (after.phase == Over(CutOff) && fault != Unfinished(fault.code))
    ensures LiveSound(WithError(Stored(t, row), |t.rows|, fault.code), proposals, after)
  {
    StoredViewFailed(t, turn.from, row, fault.code);
    LiveSnoc(turn.events, Failure(fault));
    CardsFrame(t.rows, row, proposals, turn, after);
  }

  lemma ProposeLive(t: Transcript, before: seq<Proposal>, after: seq<Proposal>, turn: Turn, event: Event, shown: Turn)
    requires turn.from < |t.rows| && LiveSound(t, before, turn) && turn.phase.Tools? && turn.shown.None?
    requires |after| == |before| + 1 && after[|before|].position == |t.rows|
    requires forall q | 0 <= q < |before| :: after[q].position == before[q].position
    requires event.Shown? && event.proposal == |before|
    requires shown == turn.(phase := turn.phase.(pending := Some(|before|)), context := shown.context,
                            note := shown.note, shown := Some(|before|), events := turn.events + [event])
    ensures LiveSound(t, after, shown)
  {
    LiveSnoc(turn.events, event);
  }

  /** A result stored: its sources and its proposal show in both views. */
  lemma ReturnLive(t: Transcript, proposals: seq<Proposal>, turn: Turn, row: Message, event: Event, after: Turn)
    requires Sound(t) && AllPlaced(t.rows, proposals) && turn.from < |t.rows|
    requires LiveSound(t, proposals, turn) && turn.phase.Tools?
    requires turn.phase.pending.Some? ==>
               turn.phase.pending.value < |proposals| && proposals[turn.phase.pending.value].position == |t.rows|
    requires event.ToolEnded? && row.role == Tool && row.details == DetailsFor(turn, event.sources)
    requires event.sources.Some? ==> turn.phase.pending.None?
    requires after.phase.Tools?
    requires after == turn.(phase := turn.phase.(done := after.phase.done, pending := None), context := after.context,
                            events := turn.events + [event])
    ensures LiveSound(Stored(t, row), proposals, after)
  {
    StoredViewSnoc(t, turn.from, row);
    LiveSnoc(turn.events, event);
    if turn.shown.Some? {
      assert Placed(t.rows, proposals[turn.shown.value]);
      NamedFrame(t.rows, row, proposals, turn.shown.value);
    }
  }

  lemma AgainLive(t: Transcript, proposals: seq<Proposal>, turn: Turn)
    requires turn.from < |t.rows| && TurnSound(t, proposals, turn) && LiveSound(t, proposals, turn) && turn.phase.Tools?
    requires turn.phase.done == |t.rows[turn.phase.owner].calls|
    ensures LiveSound(t, proposals, turn.(rounds := turn.rounds + 1, phase := Streaming))
  {
  }

  lemma LimitLive(t: Transcript, proposals: seq<Proposal>, turn: Turn)
    requires turn.from < |t.rows| && TurnSound(t, proposals, turn) && LiveSound(t, proposals, turn) && turn.phase.Tools?
    requires turn.phase.done == |t.rows[turn.phase.owner].calls|
    ensures LiveSound(WithError(t, turn.phase.owner, LOOP_LIMIT), proposals,
                      Ended(Told(turn, Failure(ToolLoopLimit())), AtLimit))
  {
    LimitMessages();
    StoredViewLimited(t, turn.from, turn.phase.owner, LOOP_LIMIT, |t.rows|);
    LiveSnoc(turn.events, Failure(ToolLoopLimit()));
  }

  // --- Every step, every run ------------------------------------------------------------------

  /** The parts of a proposal may be confirmed meanwhile; what the answer shows stays. */
  lemma ConfirmLive(t: Transcript, before: Desk, after: Desk, turn: Turn)
    requires turn.from < |t.rows| && LiveSound(t, before.proposals, turn)
    requires DeskKept(before, after) && |after.proposals| == |before.proposals|
    ensures LiveSound(t, after.proposals, turn)
  {
    forall q | 0 <= q < |before.proposals|
      ensures after.proposals[q].position == before.proposals[q].position
    {
      assert ProposalKept(before.proposals[q], after.proposals[q]);
    }
  }

  lemma ProposeKeepsLive(s: State, parts: seq<Part>)
    requires DeskSound(s.desk) && LiveInv(s) && s.turn.Some? && RunsCall(s, s.turn.value)
    requires HasUser(s.thread.rows) && s.turn.value.shown.None?
    ensures LiveInv(AfterProposal(s, s.turn.value, parts))
  {
    var turn, rows := s.turn.value, s.thread.rows;
    var made := Made(s.desk.proposals, rows, parts, |rows|, turn.push);
    SupersededShape(s.desk);
    var after := AfterProposal(s, turn, parts);
    assert after.desk == Written(s.desk, made);
    ProposeLive(s.thread, s.desk.proposals, after.desk.proposals, turn,
                Shown(|s.desk.proposals|, |rows|, parts, Replaces(s.desk)), after.turn.value);
  }

  lemma ReturnKeepsLive(s: State, content: string, sources: Option<seq<Source>>)
    requires Inv(s) && LiveInv(s) && s.turn.Some? && RunsCall(s, s.turn.value)
    requires sources.Some? ==> s.turn.value.phase.pending.None?
    ensures LiveInv(AfterResult(s, s.turn.value, content, sources))
  {
    var turn := s.turn.value;
    var call := CurrentCall(s, turn);
    ReturnLive(s.thread, s.desk.proposals, turn, ResultRow(call.id, content, DetailsFor(turn, sources)),
               ToolEnded(call.name, sources), AfterResult(s, turn, content, sources).turn.value);
  }

  lemma FinishKeepsLive(s: State, truncated: bool)
    requires Sound(s.thread) && AllPlaced(s.thread.rows, s.desk.proposals) && LiveInv(s) && Reading(s)
    ensures LiveInv(AfterLast(s, s.turn.value, truncated))
  {
    var turn := s.turn.value;
    if truncated || Text.IsBlank(turn.answer) {
      var fault := OutputLimitReached(Text.IsBlank(turn.answer));
      LimitMessages();
      FailureLive(s.thread, s.desk.proposals, turn, AnswerRow(turn.answer, [], Status.Cut), fault,
                  Ended(Told(turn, Failure(fault)), CutOff));
    } else {
      EndRoundLive(s.thread, s.desk.proposals, turn, AnswerRow(turn.answer, [], Status.Complete),
                   turn.(phase := Settled, answer := ""));
    }
  }

  lemma NextRoundKeepsLive(s: State)
    requires LiveInv(s) && RoundDone(s) && TurnSound(s.thread, s.desk.proposals, s.turn.value)
    ensures LiveInv(AfterRound(s, s.turn.value))
  {
    if s.turn.value.rounds + 1 < s.turn.value.limit {
      AgainLive(s.thread, s.desk.proposals, s.turn.value);
    } else {
      LimitLive(s.thread, s.desk.proposals, s.turn.value);
    }
  }

  lemma SendKeepsLive(s: State, text: string, limit: nat)
    requires Inv(s) && s.turn.None?
    ensures var sent := s.(thread := Sent(s.thread, text));
            sent.thread.rows != [] && LiveSound(sent.thread, sent.desk.proposals, Opened(sent, text, limit))
  {
    SentKeeps(s, text);
    OpenedLive(s.(thread := Sent(s.thread, text)), text, limit);
  }

  lemma EndRoundKeepsLive(s: State, calls: seq<Call>)
    requires Sound(s.thread) && AllPlaced(s.thread.rows, s.desk.proposals) && LiveInv(s) && Reading(s) && calls != []
    ensures LiveInv(AfterCalls(s, s.turn.value, calls))
  {
    EndRoundLive(s.thread, s.desk.proposals, s.turn.value, AnswerRow(s.turn.value.answer, calls, Status.Complete),
                 AfterCalls(s, s.turn.value, calls).turn.value);
  }

  lemma ConfirmKeepsLive(s: State, p: nat, asked: seq<int>, accepted: bool)
    requires LiveInv(s)
    ensures LiveInv(s.(desk := Confirmed(s.desk, p, asked, accepted)))
  {
    if s.turn.Some? {
      ConfirmedKept(s.desk, p, asked, accepted);
      ConfirmLive(s.thread, s.desk, Confirmed(s.desk, p, asked, accepted), s.turn.value);
    }
  }

  /** What happens while a model call is read. */
  lemma ReadingKeepsLive(s: State, step: Step)
    requires Inv(s) && LiveInv(s) && Enabled(s, step)
    requires step.ReadText? || step.NameTool? || step.EndRound? || step.Finish? || step.Break?
    ensures LiveInv(Apply(s, step))
  {
    match step
    case ReadText(text) => ReadLive(s.thread, s.desk.proposals, s.turn.value, text);
    case NameTool(name) => QuietLive(s.thread, s.desk.proposals, s.turn.value, ToolStarted(name));
    case EndRound(calls) => EndRoundKeepsLive(s, calls);
    case Finish(truncated) => FinishKeepsLive(s, truncated);
    case Break(fault) =>
      FailureLive(s.thread, s.desk.proposals, s.turn.value, AnswerRow(s.turn.value.answer, [], Failed), fault,
                  Ended(Told(s.turn.value, Failure(fault)), BrokeOff));
  }

  /** What happens while calls run. */
  lemma CallingKeepsLive(s: State, step: Step)
    requires Inv(s) && LiveInv(s) && Enabled(s, step)
    requires step.Propose? || step.Return? || step.NextRound?
    ensures LiveInv(Apply(s, step))
  {
    match step
    case Propose(parts) => ProposeKeepsLive(s, parts);
    case Return(content, sources) => ReturnKeepsLive(s, content, sources);
    case NextRound => NextRoundKeepsLive(s);
  }

  lemma TellingKeepsLive(s: State, step: Step)
    requires Inv(s) && LiveInv(s) && Enabled(s, step)
    requires step.Report? || step.SayDone? || step.Stop?
    ensures LiveInv(Apply(s, step))
  {
    match step
    case Report => QuietLive(s.thread, s.desk.proposals, s.turn.value, Reported);
    case SayDone => DoneLive(s.thread, s.desk.proposals, s.turn.value);
    case Stop(fault) => StopLive(s.thread, s.desk.proposals, s.turn.value, fault);
  }

  lemma OtherKeepsLive(s: State, step: Step)
    requires Inv(s) && LiveInv(s) && Enabled(s, step)
    requires step.Send? || step.Close? || step.DraftSummary? || step.Accept? || step.Offer? || step.Confirm?
    ensures LiveInv(Apply(s, step))
  {
    match step
    case Send(text, limit, reached) => SendKeepsLive(s, text, limit);
    case Confirm(p, asked, accepted) => ConfirmKeepsLive(s, p, asked, accepted);
    case Close =>
    case DraftSummary(_) =>
    case Accept(_, _) =>
    case Offer(_) =>
  }

  lemma StepKeepsLive(s: State, step: Step)
    requires Inv(s) && LiveInv(s) && Enabled(s, step)
    ensures LiveInv(Apply(s, step))
  {
    if step.ReadText? || step.NameTool? || step.EndRound? || step.Finish? || step.Break? {
      ReadingKeepsLive(s, step);
    } else if step.Propose? || step.Return? || step.NextRound? {
      CallingKeepsLive(s, step);
    } else if step.Report? || step.SayDone? || step.Stop? {
      TellingKeepsLive(s, step);
    } else {
      OtherKeepsLive(s, step);
    }
  }

  lemma {:induction false} RunKeepsLive(states: seq<State>, steps: seq<Step>, k: nat)
    requires Run(states, steps) && k < |states|
    ensures LiveInv(states[k])
  {
    if k == 0 {
    } else {
      RunKeepsLive(states, steps, k - 1);
      RunKeeps(states, steps, k - 1);
      StepKeepsLive(states[k - 1], steps[k - 1]);
    }
  }
}
