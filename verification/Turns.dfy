/** One chat turn as it runs: it streams rounds, runs their tool calls, and stores what they produce. */
module Turns {
  import opened Wrappers
  import Text
  import opened Commands
  import opened Messages
  import opened RawText
  import opened Proposals
  import opened Lifecycle
  import C = Chat
  import opened Chat
  import Rounds
  import opened Conversations
  import opened Scripts
  import opened Traces

  // --- Several steps ---------------------------------------------------------------------------

  function Next(s: State, step: Step): Option<State> {
    if Enabled(s, step) then Some(Apply(s, step)) else None
  }

  /** The state that steps of the conversation lead to, if each can happen. */
  function Then(s: State, steps: seq<Step>): Option<State> {
    After(Next, s, steps)
  }

  /** What steps lead to from the end of a run is the end of a longer one, so what holds over every
      run holds of what they lead to. */
  lemma RunContinues(states: seq<State>, steps: seq<Step>, more: seq<Step>) returns (longer: seq<State>)
    requires Run(states, steps) && Then(states[|states| - 1], more).Some?
    ensures Run(longer, steps + more) && states <= longer
    ensures Some(longer[|longer| - 1]) == Then(states[|states| - 1], more)
  {
    assert forall k | 0 <= k < |steps| :: Next(states[k], steps[k]) == Some(states[k + 1]);
    longer := RunExtends(Next, states, steps, more);
    assert longer[0] == states[0];
    forall k | 0 <= k < |steps + more|
      ensures Enabled(longer[k], (steps + more)[k]) && longer[k + 1] == Apply(longer[k], (steps + more)[k])
    {
      assert Next(longer[k], (steps + more)[k]) == Some(longer[k + 1]);
    }
  }

  class Turn {
    const conversation: Conversation
    const push: bool
    const limit: nat
    var context: seq<ModelMessage>
    /** The parts in the note that the context ends with, if it does. */
    var heldParts: seq<Part>
    /** The proposal made in this turn, which may make one. */
    var shown: Option<nat>
    var sent: seq<Event>
    ghost var from: nat
    ghost var rounds: nat
    ghost var phase: Phase
    ghost var answer: string

    ghost function Now(): C.Turn
      reads this
    {
      C.Turn(from, push, limit, rounds, phase, context, heldParts, shown, answer, sent)
    }

    ghost function Model(): State
      reads this, conversation
    {
      State(conversation.Thread(), conversation.Proposed(), Some(Now()))
    }

    ghost predicate Valid()
      reads this, conversation
    {
      conversation.Valid()
    }

    /** A turn whose first model call is open, for a message just stored. */
    constructor (conversation: Conversation, text: string, limit: nat, context: seq<ModelMessage>, held: seq<Part>)
      requires conversation.Valid() && conversation.rows != []
      requires held == HeldParts(conversation.Proposed())
      requires context == BuildContext(conversation.rows, conversation.compacted, held)
      ensures this.conversation == conversation && this.limit == limit && Valid()
      ensures Now() == Opened(conversation.Idle(), text, limit)
    {
      this.conversation, this.push, this.limit := conversation, IsPush(text), limit;
      this.context, heldParts, shown, sent := context, held, None, [];
      from, rounds, phase, answer := |conversation.rows| - 1, 0, Streaming, "";
    }

    // --- Steps of a round ------------------------------------------------------------------------

    method Send(event: Event)
      modifies this`sent
      ensures sent == old(sent) + [event]
    {
      sent := sent + [event];
    }

    /** Text and the names of calls are sent as they are read. */
    method Forward(event: Event)
      requires Valid() && phase.Streaming? && Rounds.CanForward(event)
      modifies this`sent, this`answer
      ensures Valid() && phase.Streaming?
      ensures Model() == Apply(old(Model()), if event.Delta? then ReadText(event.text) else NameTool(event.name))
    {
      Send(event);
      if event.Delta? {
        answer := answer + event.text;
      }
    }

    method ForwardAll(events: seq<Event>)
      requires Valid() && phase.Streaming? && forall k | 0 <= k < |events| :: Rounds.CanForward(events[k])
      modifies this`sent, this`answer
      ensures Valid() && Model() == Rounds.Fed(old(Model()), events)
    {
      for n := 0 to |events|
        invariant Valid() && phase.Streaming? && Model() == Rounds.Fed(old(Model()), events[..n])
      {
        assert events[..n + 1][..n] == events[..n];
        Forward(events[n]);
      }
      assert events[..|events|] == events;
    }

    /** The round asked for calls: its row is stored, and the context has it. */
    method StoreCalls(text: string, calls: seq<Call>)
      requires Valid() && phase.Streaming? && calls != [] && text == answer
      modifies this`context, this`phase, this`answer, conversation`rows, conversation`positions
      ensures Valid() && Model() == Apply(old(Model()), EndRound(calls))
      ensures AddsAnswer(old(conversation.rows), conversation.rows, text, calls, Status.Complete)
    {
      phase := Tools(|conversation.rows|, 0, None);
      conversation.Store(AnswerRow(text, calls, Status.Complete));
      context := context + [AssistantText(text, calls)];
      answer := "";
    }

    /** An answer that did not finish is stored with its error, which is reported. */
    method StoreUnfinished(text: string, status: Status, fault: Fault, ghost ending: Ending)
      requires Valid() && phase.Streaming? && text == answer
      modifies this`sent, this`phase, this`answer, conversation`rows, conversation`positions, conversation`errors
      ensures Valid()
      ensures Model() == AfterFailure(old(Model()), Told(old(Now()), Failure(fault)), status, fault.code, ending)
      ensures phase == Over(ending) && sent == old(sent) + [Failure(fault)]
      ensures AddsAnswer(old(conversation.rows), conversation.rows, text, [], status)
      ensures conversation.errors == old(conversation.errors)[old(|conversation.rows|) := fault.code]
    {
      Send(Failure(fault));
      conversation.errors := conversation.errors[|conversation.rows| := fault.code];
      conversation.Store(AnswerRow(text, [], status));
      phase, answer := Over(ending), "";
    }

    method StoreBroken(text: string, fault: Fault)
      requires Valid() && phase.Streaming? && text == answer
      modifies this`sent, this`phase, this`answer, conversation`rows, conversation`positions, conversation`errors
      ensures Valid() && Model() == Apply(old(Model()), Break(fault))
      ensures phase == Over(BrokeOff) && sent == old(sent) + [Failure(fault)]
      ensures AddsAnswer(old(conversation.rows), conversation.rows, text, [], Failed)
      ensures conversation.errors == old(conversation.errors)[old(|conversation.rows|) := fault.code]
    {
      StoreUnfinished(text, Failed, fault, BrokeOff);
    }

    /** A round without calls: its answer is whole, or cut at the output limit or blank. */
    method StoreLast(text: string, truncated: bool)
      requires Valid() && phase.Streaming? && text == answer
      modifies this`sent, this`phase, this`answer, conversation`rows, conversation`positions, conversation`errors
      ensures Valid() && (phase.Over? || phase.Settled?) && Model() == Apply(old(Model()), Finish(truncated))
      ensures phase.Settled? <==> !truncated && !Text.IsBlank(text)
      ensures phase.Settled? ==>
                && AddsAnswer(old(conversation.rows), conversation.rows, text, [], Status.Complete)
                && conversation.errors == old(conversation.errors)
      ensures phase.Over? ==>
                && phase == Over(CutOff) && sent == old(sent) + [Failure(OutputLimitReached(Text.IsBlank(text)))]
                && AddsAnswer(old(conversation.rows), conversation.rows, text, [], Status.Cut)
                && conversation.errors == old(conversation.errors)[old(|conversation.rows|) := OUTPUT_LIMIT]
    {
      if truncated || Text.IsBlank(text) {
        StoreUnfinished(text, Status.Cut, OutputLimitReached(Text.IsBlank(text)), CutOff);
      } else {
        conversation.Store(AnswerRow(text, [], Status.Complete));
        phase, answer := Settled, "";
      }
    }

    /** The turn ends on an error that stores nothing. */
    method StopWith(fault: Fault)
      requires Valid() && !phase.Over?
      modifies this`sent, this`phase
      ensures Valid() && phase == Over(Stopped) && Model() == Apply(old(Model()), Stop(fault))
      ensures sent == old(sent) + [Failure(fault)]
    {
      Send(Failure(fault));
      phase := Over(Stopped);
    }

    method Complete()
      requires Valid() && phase.Settled?
      modifies this`sent, this`phase, this`answer
      ensures Valid() && phase == Over(Whole) && Model() == Apply(old(Model()), SayDone)
      ensures sent == old(sent) + [Done]
    {
      Send(Done);
      phase, answer := Over(Whole), "";
    }

    method StartRound()
      requires Valid() && RoundDone(Model()) && rounds + 1 < limit
      modifies this`rounds, this`phase
      ensures Valid() && phase.Streaming? && Model() == Apply(old(Model()), NextRound)
    {
      rounds, phase := rounds + 1, Streaming;
    }

    /** The last round asked for calls again: the error is noted on its row. */
    method HitLimit(last: nat)
      requires Valid() && RoundDone(Model()) && rounds + 1 == limit && last == phase.owner
      modifies this`sent, this`phase, this`answer, conversation`errors
      ensures Valid() && phase == Over(AtLimit) && Model() == Apply(old(Model()), NextRound)
      ensures conversation.errors == old(conversation.errors)[last := LOOP_LIMIT]
      ensures sent == old(sent) + [Failure(Fault(LOOP_LIMIT, KEPT_USING_TOOLS))]
    {
      conversation.errors := conversation.errors[last := LOOP_LIMIT];
      Send(Failure(ToolLoopLimit()));
      phase, answer := Over(AtLimit), "";
    }

    // --- Running a tool call -----------------------------------------------------------------------

    /** Removes the note from the context in place. */
    method DropNote()
      modifies this`context, this`heldParts
      ensures context == DropHeldNote(old(context), old(heldParts)) && heldParts == []
    {
      if heldParts != [] {
        var note := HeldNote(Unsaved(heldParts));
        var i := 0;
        while i < |context| && context[i] != note
          invariant 0 <= i <= |context| && context == old(context)
          invariant Without(context, note) == context[..i] + Without(context[i..], note)
        {
          WithoutStep(context, note, i);
          i := i + 1;
        }
        if i < |context| {
          assert context[i..][1..] == context[i + 1..];
          context := context[..i] + context[i + 1..];
        } else {
          assert context[..i] + [] == context;
        }
      }
      heldParts := [];
    }

    /** The first proposal of the turn is written, held and shown. */
    method ShowProposal(parts: seq<Part>) returns (made: Proposal)
      requires Valid() && phase.Tools? && HasUser(conversation.rows)
      modifies this`context, this`heldParts, this`shown, this`sent, this`phase, conversation`proposals
      modifies conversation`held
      ensures made == Made(old(conversation.proposals), conversation.rows, parts, |conversation.rows|, push)
      ensures Valid() && Model() == AfterShowing(old(Model()), old(Now()), made)
      ensures Writes(parts, old(|conversation.rows|), old(|conversation.proposals|))
    {
      DropNote();
      var p := |conversation.proposals|;
      var position := conversation.NextPosition();
      var replaced;
      made, replaced := conversation.WriteProposal(parts, position, push);
      NoteShown(p, made, replaced);
    }

    /** The conversation holds a new proposal with these parts, placed there, and the turn has shown it. */
    ghost predicate Writes(parts: seq<Part>, position: nat, next: nat)
      reads this, conversation
    {
      && |conversation.proposals| == next + 1 && conversation.held == Some(next) && shown == Some(next)
      && conversation.proposals[next].parts == parts && conversation.proposals[next].position == position
    }

    method NoteShown(p: nat, made: Proposal, replaced: Option<nat>)
      requires phase.Tools?
      modifies this`shown, this`sent, this`phase
      ensures Now() == old(Now()).(phase := old(phase).(pending := Some(p)), shown := Some(p),
                                   events := old(sent) + [Shown(p, made.position, made.parts, replaced)])
    {
      Send(Shown(p, made.position, made.parts, replaced));
      shown := Some(p);
      phase := phase.(pending := Some(p));
    }

    /** A call's result is stored, given to the context and sent. */
    method StoreResult(call: Call, content: string, sources: Option<seq<Source>>, proposal: Option<nat>)
      requires Valid() && RunsCall(Model(), Now()) && call == CurrentCall(Model(), Now()) && proposal == phase.pending
      modifies this`context, this`sent, this`phase, conversation`rows, conversation`positions
      ensures Valid() && Model() == AfterResult(old(Model()), old(Now()), content, sources)
      ensures AddsResult(old(conversation.rows), conversation.rows, call, content,
                         if proposal.Some? then ProposalShown(proposal.value)
                         else if sources.Some? then Sources(sources.value) else NoDetails)
    {
      var details := if proposal.Some? then ProposalShown(proposal.value)
        else if sources.Some? then Sources(sources.value) else NoDetails;
      conversation.Store(ResultRow(call.id, content, details));
      context := context + [ToolResult(call.id, content)];
      Send(ToolEnded(call.name, sources));
      phase := phase.(done := phase.done + 1, pending := None);
    }

    /** A call is answered: what it did is stored, given to the context and sent. */
    method Answer(call: Call, content: string, sources: Option<seq<Source>>, proposal: Option<nat>)
        returns (ghost steps: seq<Step>)
      requires Valid() && RunsCall(Model(), Now()) && call == CurrentCall(Model(), Now()) && phase.pending == proposal
      requires sources.Some? ==> call.name == SEARCH_TOOL && proposal.None?
      modifies this`context, this`sent, this`phase, conversation`rows, conversation`positions
      ensures Valid() && Then(old(Model()), steps) == Some(Model())
      ensures phase == old(phase).(done := old(phase).done + 1, pending := None)
      ensures AddsResult(old(conversation.rows), conversation.rows, call, content,
                         if proposal.Some? then ProposalShown(proposal.value)
                         else if sources.Some? then Sources(sources.value) else NoDetails)
    {
      steps := [Return(content, sources)];
      ThenOne(Model(), Return(content, sources));
      StoreResult(call, content, sources, proposal);
    }

    method Propose(call: Call, parts: seq<Part>) returns (ghost steps: seq<Step>)
      requires Valid() && RunsCall(Model(), Now()) && call == CurrentCall(Model(), Now()) && phase.pending.None?
      requires HasUser(conversation.rows) && call.name == PROPOSE_TOOL && shown.None? && NewParts(parts)
      modifies this`context, this`heldParts, this`shown, this`sent, this`phase
      modifies conversation`rows, conversation`positions, conversation`proposals, conversation`held
      ensures Valid() && Then(old(Model()), steps) == Some(Model())
      ensures phase == old(phase).(done := old(phase).done + 1)
      ensures AddsResult(old(conversation.rows), conversation.rows, call, PROPOSAL_SHOWN,
                         ProposalShown(old(|conversation.proposals|)))
      ensures Writes(parts, old(|conversation.rows|), old(|conversation.proposals|))
    {
      ghost var before := Model();
      var p := |conversation.proposals|;
      steps := ShowAsStep(parts);
      ghost var more := Answer(call, PROPOSAL_SHOWN, None, Some(p));
      steps := ThenJoin(before, steps, more, Model());
    }

    method ShowAsStep(parts: seq<Part>) returns (ghost steps: seq<Step>)
      requires Valid() && Enabled(Model(), Step.Propose(parts))
      modifies this`context, this`heldParts, this`shown, this`sent, this`phase, conversation`proposals
      modifies conversation`held
      ensures Valid() && Then(old(Model()), steps) == Some(Model())
      ensures phase == old(phase).(pending := Some(old(|conversation.proposals|)))
      ensures Writes(parts, old(|conversation.rows|), old(|conversation.proposals|))
    {
      steps := [Step.Propose(parts)];
      ghost var before := Model();
      var made := ShowProposal(parts);
      ThenOne(before, Step.Propose(parts));
      ProposedIs(before, parts, made, Model());
    }

    /** Runs one call. A call that does not fit is answered with the complaint, for the model to try
        again; an error of the search stops the turn. */
    method RunTool(call: Call, outcome: Outcome) returns (stopped: bool, ghost steps: seq<Step>)
      requires Valid() && RunsCall(Model(), Now()) && call == CurrentCall(Model(), Now()) && phase.pending.None?
      requires HasUser(conversation.rows)
      modifies this`context, this`heldParts, this`shown, this`sent, this`phase
      modifies conversation`rows, conversation`positions, conversation`proposals, conversation`held
      ensures Valid() && Then(old(Model()), steps) == Some(Model())
      ensures stopped <==> Stops(call, outcome)
      ensures stopped ==>
                && phase == Over(Stopped) && sent == old(sent) + [Failure(outcome.failure.value)]
                && conversation.rows == old(conversation.rows)
      ensures !stopped ==>
                && phase == old(phase).(done := old(phase).done + 1)
                && |conversation.rows| == old(|conversation.rows|) + 1 && old(conversation.rows) <= conversation.rows
                && IsAnswerTo(conversation.rows[old(|conversation.rows|)], call, outcome, old(shown).Some?,
                              old(|conversation.proposals|))
      ensures if Makes(call, outcome) && old(shown).None? then
                Writes(outcome.parts, old(|conversation.rows|), old(|conversation.proposals|))
              else
                conversation.proposals == old(conversation.proposals) && conversation.held == old(conversation.held)
                  && shown == old(shown)
    {
      stopped := false;
      if !outcome.fit {
        steps := Answer(call, outcome.complaint, None, None);
      } else if call.name == SEARCH_TOOL {
        if outcome.failure.Some? {
          stopped, steps := true, [Stop(outcome.failure.value)];
          ThenOne(Model(), Stop(outcome.failure.value));
          StopWith(outcome.failure.value);
        } else {
          steps := Answer(call, outcome.found, Some(outcome.sources), None);
        }
      } else if call.name == PROPOSE_TOOL && shown.Some? {
        steps := Answer(call, ALREADY_PROPOSED, None, None);
      } else if call.name == PROPOSE_TOOL && NewParts(outcome.parts) {
        steps := Propose(call, outcome.parts);
      } else {
        steps := Answer(call, outcome.complaint, None, None);
      }
    }

    /** Since row `start`, a row shows a proposal just when the turn has made one, which is `next`. */
    ghost predicate Since(start: nat, next: nat)
      reads this, conversation
    {
      && start <= |conversation.rows|
      && (shown.Some? <==> HasShown(conversation.rows, start, |conversation.rows|))
      && (shown.Some? ==> shown == Some(next) == conversation.held)
      && |conversation.proposals| == next + if shown.Some? then 1 else 0
    }

    /** The first k calls of the row before `base` are answered by the rows from there on. */
    ghost predicate Answering(start: nat, next: nat, base: nat, calls: seq<Call>, outcomes: nat -> Outcome, k: nat)
      reads this, conversation
    {
      && Since(start, next) && start <= base && |conversation.rows| == base + k && k <= |calls|
      && AnswersCalls(conversation.rows, conversation.proposals, start, next, base, calls, outcomes, k)
    }

    ghost function Stored(): Store
      reads this, conversation
    {
      Store(conversation.rows, conversation.proposals, conversation.held, shown)
    }

    /** The calls of the row `owner`, stored with this text, run, and k of them are done. */
    ghost predicate Calling(owner: nat, text: string, calls: seq<Call>, k: nat)
      reads this, conversation
    {
      && Valid() && HasUser(conversation.rows) && phase == Tools(owner, k, None)
      && owner < |conversation.rows| && IsAnswerRow(conversation.rows[owner], text, calls, Status.Complete)
    }

    /** A search's error stopped the turn at one of the calls of the row `owner`. */
    ghost predicate StoppedAt(owner: nat, text: string, calls: seq<Call>, outcomes: nat -> Outcome, start: nat,
                              next: nat)
      reads this, conversation
    {
      var n := |conversation.rows| - owner - 1;
      && owner < |conversation.rows| && IsAnswerRow(conversation.rows[owner], text, calls, Status.Complete)
      && 0 <= n < |calls| && Answering(start, next, owner + 1, calls, outcomes, n)
      && Stops(calls[n], outcomes(n)) && phase == Over(Stopped)
      && sent != [] && sent[|sent| - 1] == Failure(outcomes(n).failure.value)
    }

    /** Runs call k of the row just stored. */
    method RunCall(owner: nat, ghost text: string, calls: seq<Call>, outcomes: nat -> Outcome, k: nat,
                   ghost start: nat, ghost next: nat)
        returns (stopped: bool, ghost steps: seq<Step>)
      requires Calling(owner, text, calls, k) && k < |calls|
      requires Answering(start, next, owner + 1, calls, outcomes, k)
      modifies this`context, this`heldParts, this`shown, this`sent, this`phase
      modifies conversation`rows, conversation`positions, conversation`proposals, conversation`held
      ensures Valid() && Then(old(Model()), steps) == Some(Model())
      ensures if stopped then StoppedAt(owner, text, calls, outcomes, start, next)
              else Calling(owner, text, calls, k + 1) && Answering(start, next, owner + 1, calls, outcomes, k + 1)
      ensures StoreGrows(old(Stored()), Stored(), next)
    {
      ghost var rows, proposals := conversation.rows, conversation.proposals;
      stopped, steps := RunTool(calls[k], outcomes(k));
      if !stopped {
        NextAnswered(rows, conversation.rows, proposals, conversation.proposals, start, next, owner + 1,
                     calls, outcomes,
                     k);
        HasUserStays(rows, conversation.rows);
      }
    }

    method RunNext(owner: nat, ghost text: string, calls: seq<Call>, outcomes: nat -> Outcome, k: nat,
                   ghost start: nat, ghost next: nat, ghost begin: State, ghost before: seq<Step>)
        returns (stopped: bool, ghost steps: seq<Step>)
      requires Calling(owner, text, calls, k) && k < |calls|
      requires Answering(start, next, owner + 1, calls, outcomes, k) && Then(begin, before) == Some(Model())
      modifies this`context, this`heldParts, this`shown, this`sent, this`phase
      modifies conversation`rows, conversation`positions, conversation`proposals, conversation`held
      ensures Valid() && Then(begin, steps) == Some(Model())
      ensures if stopped then StoppedAt(owner, text, calls, outcomes, start, next)
              else Calling(owner, text, calls, k + 1) && Answering(start, next, owner + 1, calls, outcomes, k + 1)
      ensures StoreGrows(old(Stored()), Stored(), next)
    {
      ghost var more;
      stopped, more := RunCall(owner, text, calls, outcomes, k, start, next);
      steps := ThenJoin(begin, before, more, Model());
    }

    /** Runs the calls of the row just stored, in order. */
    method RunTools(owner: nat, ghost text: string, calls: seq<Call>, outcomes: nat -> Outcome,
                    ghost start: nat, ghost next: nat, ghost first: Store, ghost begin: State, ghost before: seq<Step>)
        returns (stopped: bool, ghost steps: seq<Step>)
      requires Calling(owner, text, calls, 0) && Answering(start, next, owner + 1, calls, outcomes, 0)
      requires Then(begin, before) == Some(Model()) && StoreGrows(first, Stored(), next)
      modifies this`context, this`heldParts, this`shown, this`sent, this`phase
      modifies conversation`rows, conversation`positions, conversation`proposals, conversation`held
      ensures Valid() && Then(begin, steps) == Some(Model())
      ensures if stopped then StoppedAt(owner, text, calls, outcomes, start, next)
              else Calling(owner, text, calls, |calls|) && Answering(start, next, owner + 1, calls, outcomes, |calls|)
      ensures StoreGrows(first, Stored(), next)
    {
      stopped, steps := false, before;
      for k := 0 to |calls|
        invariant Then(begin, steps) == Some(Model())
        invariant Calling(owner, text, calls, k) && Answering(start, next, owner + 1, calls, outcomes, k)
        invariant StoreGrows(first, Stored(), next)
      {
        ghost var was := Stored();
        stopped, steps := RunNext(owner, text, calls, outcomes, k, start, next, begin, steps);
        StoreGrowsOn(first, was, Stored(), next);
        if stopped {
          return;
        }
      }
    }

    // --- The tool loop --------------------------------------------------------------------------------

    /** Reads what a stream carries, and sends it as it arrives. */
    method ReadStream(choices: seq<Rounds.Choice>) returns (state: Rounds.RoundState, ghost steps: seq<Step>)
      requires Valid() && phase.Streaming? && answer == ""
      modifies this`sent, this`answer
      ensures Valid() && fresh(state) && state.Valid()
      ensures Text.Concat(state.text) == TextIn(choices) && state.finish == FinishIn(choices)
      ensures state.calls == Rounds.Collected(AllPieces(choices))
      ensures answer == Text.Concat(state.text) && Then(old(Model()), steps) == Some(Model())
    {
      ghost var before := Model();
      var events;
      state, events := Rounds.HearStream(choices);
      ForwardAll(events);
      Rounds.FedMeaning(before, events);
      Rounds.ForwardedText(Rounds.Stream(choices));
      StreamCarries(choices);
      steps := FedAsSteps(before, events);
    }

    /** The last event sent. */
    ghost function LastSent(): Event
      requires sent != []
      reads this
    {
      sent[|sent| - 1]
    }

    /** The turn is over, ended by a round whose rows start at `at`; `errors` are those noted before it. */
    ghost predicate EndedBy(round: Round, start: nat, next: nat, at: nat, errors: map<nat, string>)
      reads this, conversation
    {
      && phase.Over? && sent != []
      && RoundEnds(conversation.rows, conversation.proposals, start, next, at, round, errors, conversation.errors,
                   phase.ending, LastSent())
    }

    /** A round with its rows from `at` on has run whole. */
    ghost predicate RanRound(round: Round, start: nat, next: nat, at: nat)
      reads this, conversation
    {
      && Valid() && HasUser(conversation.rows) && RoundDone(Model()) && phase.owner == at && answer == ""
      && ReadWhole(round) && RoundRan(conversation.rows, conversation.proposals, start, next, at, round)
      && Since(start, next) && |conversation.rows| == at + 1 + |conversation.rows[at].calls|
    }

    /** One round: its stream is read; then its answer is the last, or its calls run. */
    method RunRound(round: Round, ghost start: nat, ghost next: nat)
        returns (over: bool, last: nat, ghost steps: seq<Step>)
      requires Valid() && phase.Streaming? && answer == "" && HasUser(conversation.rows) && Since(start, next)
      modifies this`context, this`heldParts, this`shown, this`sent, this`phase, this`answer
      modifies conversation`rows, conversation`positions, conversation`errors, conversation`proposals, conversation`held
      ensures Valid() && Then(old(Model()), steps) == Some(Model())
      ensures if over then EndedBy(round, start, next, old(|conversation.rows|), old(conversation.errors))
              else
                && last == old(|conversation.rows|) && conversation.errors == old(conversation.errors)
                && RanRound(round, start, next, last)
      ensures StoreGrows(old(Stored()), Stored(), next)
    {
      ghost var begin, more := Model(), [];
      over, last := true, 0;
      var state;
      state, steps := ReadStream(round.choices);
      var text := Text.Concat(state.text);
      if round.broken.Some? || round.late.Some? {
        more := BreakOff(text, round, start, next);
      } else {
        var indexes, calls := state.ToolCalls(round.spare);
        CallsAreAsked(round, indexes, calls);
        if calls == [] {
          more := AnswerLast(text, state.finish == "length", round, start, next);
        } else {
          over, last, more := RunCalls(text, calls, round, start, next);
        }
      }
      steps := ThenJoin(begin, steps, more, Model());
    }

    /** An error while the stream is read stores the answer so far; one right after it does not. */
    method BreakOff(text: string, round: Round, ghost start: nat, ghost next: nat) returns (ghost steps: seq<Step>)
      requires Valid() && phase.Streaming? && text == answer == TextIn(round.choices) && !ReadWhole(round)
      modifies this`sent, this`phase, this`answer, conversation`rows, conversation`positions, conversation`errors
      ensures Valid() && Then(old(Model()), steps) == Some(Model())
      ensures EndedBy(round, start, next, old(|conversation.rows|), old(conversation.errors))
      ensures StoreGrows(old(Stored()), Stored(), next)
    {
      if round.broken.Some? {
        steps := [Break(round.broken.value)];
        ThenOne(Model(), Break(round.broken.value));
        StoreBroken(text, round.broken.value);
      } else {
        steps := [Stop(round.late.value)];
        ThenOne(Model(), Stop(round.late.value));
        StopWith(round.late.value);
      }
    }

    /** A round with calls stores them, then runs them. */
    method RunCalls(text: string, calls: seq<Call>, round: Round, ghost start: nat, ghost next: nat)
        returns (over: bool, last: nat, ghost steps: seq<Step>)
      requires Valid() && phase.Streaming? && text == answer == TextIn(round.choices) && HasUser(conversation.rows)
      requires calls != [] && AsksFor(round, calls) && Asks(round) && ReadWhole(round) && Since(start, next)
      modifies this`context, this`heldParts, this`shown, this`sent, this`phase, this`answer
      modifies conversation`rows, conversation`positions, conversation`proposals, conversation`held
      ensures Valid() && Then(old(Model()), steps) == Some(Model())
      ensures if over then EndedBy(round, start, next, old(|conversation.rows|), conversation.errors)
              else last == old(|conversation.rows|) && RanRound(round, start, next, last)
      ensures StoreGrows(old(Stored()), Stored(), next)
    {
      ghost var begin, first := Model(), Stored();
      last := |conversation.rows|;
      steps := StartCalls(text, calls, round.outcomes, start, next);
      over, steps := RunTools(last, text, calls, round.outcomes, start, next, first, begin, steps);
      CallsDone(over, round, start, next, last, calls);
    }

    method StartCalls(text: string, calls: seq<Call>, outcomes: nat -> Outcome, ghost start: nat, ghost next: nat)
        returns (ghost steps: seq<Step>)
      requires Valid() && phase.Streaming? && text == answer && calls != [] && HasUser(conversation.rows)
      requires Since(start, next)
      modifies this`context, this`phase, this`answer, conversation`rows, conversation`positions
      ensures Valid() && Then(old(Model()), steps) == Some(Model()) && answer == ""
      ensures AddsAnswer(old(conversation.rows), conversation.rows, text, calls, Status.Complete)
      ensures Calling(old(|conversation.rows|), text, calls, 0)
      ensures Answering(start, next, old(|conversation.rows|) + 1, calls, outcomes, 0)
      ensures StoreGrows(old(Stored()), Stored(), next)
    {
      ghost var begin, rows := Model(), conversation.rows;
      steps := [EndRound(calls)];
      ThenOne(begin, EndRound(calls));
      StoreCalls(text, calls);
      HasUserStays(rows, conversation.rows);
      ShownSnoc(rows, conversation.rows, start);
    }

    lemma CallsDone(over: bool, round: Round, start: nat, next: nat, at: nat, calls: seq<Call>)
      requires calls != [] && AsksFor(round, calls) && Asks(round) && ReadWhole(round)
      requires if over then StoppedAt(at, TextIn(round.choices), calls, round.outcomes, start, next)
               else
                 && Calling(at, TextIn(round.choices), calls, |calls|) && answer == ""
                 && Answering(start, next, at + 1, calls, round.outcomes, |calls|)
      ensures if over then EndedBy(round, start, next, at, conversation.errors) else RanRound(round, start, next, at)
    {
      if over {
        CallsStopped(round, start, next, at, calls);
      } else {
        CallsRan(round, start, next, at, calls);
      }
    }

    lemma CallsStopped(round: Round, start: nat, next: nat, at: nat, calls: seq<Call>)
      requires StoppedAt(at, TextIn(round.choices), calls, round.outcomes, start, next)
      requires AsksFor(round, calls) && Asks(round) && ReadWhole(round)
      ensures EndedBy(round, start, next, at, conversation.errors)
    {
    }

    lemma CallsRan(round: Round, start: nat, next: nat, at: nat, calls: seq<Call>)
      requires Calling(at, TextIn(round.choices), calls, |calls|)
      requires Answering(start, next, at + 1, calls, round.outcomes, |calls|)
      requires calls != [] && AsksFor(round, calls) && ReadWhole(round) && answer == ""
      ensures RanRound(round, start, next, at)
    {
    }

    /** The answer of a round without calls ends the turn. */
    method AnswerLast(text: string, truncated: bool, round: Round, ghost start: nat, ghost next: nat)
        returns (ghost steps: seq<Step>)
      requires Valid() && phase.Streaming? && text == answer == TextIn(round.choices)
      requires truncated == (FinishIn(round.choices) == "length") && !Asks(round) && ReadWhole(round)
      modifies this`sent, this`phase, this`answer, conversation`rows, conversation`positions, conversation`errors
      ensures Valid() && Then(old(Model()), steps) == Some(Model())
      ensures EndedBy(round, start, next, old(|conversation.rows|), old(conversation.errors))
      ensures StoreGrows(old(Stored()), Stored(), next)
    {
      ghost var begin := Model();
      steps := [Finish(truncated)];
      ThenOne(begin, Finish(truncated));
      StoreLast(text, truncated);
      if !truncated && !Text.IsBlank(text) {
        steps := CompleteAfter(begin, steps);
      }
    }

    method CompleteAfter(ghost begin: State, ghost before: seq<Step>) returns (ghost steps: seq<Step>)
      requires Valid() && phase.Settled? && Then(begin, before) == Some(Model())
      modifies this`sent, this`phase, this`answer
      ensures Valid() && phase == Over(Whole) && Then(begin, steps) == Some(Model()) && sent == old(sent) + [Done]
    {
      ThenMore(begin, before, Model(), SayDone);
      steps := before + [SayDone];
      Complete();
    }

    /** Opens the stream of a later round, which may fail. */
    method OpenRound(closed: Option<Fault>) returns (over: bool, ghost steps: seq<Step>)
      requires Valid() && RoundDone(Model()) && rounds + 1 < limit
      modifies this`sent, this`rounds, this`phase
      ensures Valid() && Then(old(Model()), steps) == Some(Model())
      ensures over <==> closed.Some?
      ensures if over then phase == Over(Stopped) && sent == old(sent) + [Failure(closed.value)]
              else phase.Streaming? && rounds == old(rounds) + 1
    {
      over := closed.Some?;
      if over {
        steps := [Stop(closed.value)];
        ThenOne(Model(), Stop(closed.value));
        StopWith(closed.value);
      } else {
        steps := [NextRound];
        ThenOne(Model(), NextRound);
        StartRound();
      }
    }

    /** These rounds have run, and nothing was stored after them. */
    ghost predicate RanRounds(start: nat, next: nat, marks: seq<nat>, script: seq<Round>)
      reads this, conversation
    {
      && Since(start, next) && InARow(conversation.rows, start, marks, |conversation.rows|)
      && RoundsRan(conversation.rows, conversation.proposals, start, next, marks, script)
    }

    /** The turn is over: it ended so once these rounds had run. */
    ghost predicate EndedAfter(start: nat, next: nat, marks: seq<nat>, end: nat, script: seq<Round>,
                               errors: map<nat, string>)
      reads this, conversation
    {
      && phase.Over? && sent != [] && |marks| <= limit
      && InARow(conversation.rows, start, marks, end)
      && RoundsRan(conversation.rows, conversation.proposals, start, next, marks, script)
      && TurnEnds(conversation.rows, conversation.proposals, start, next, marks, end, script, limit, errors,
                  conversation.errors, phase.ending, LastSent())
    }

    lemma EndedSo(was: Store, start: nat, next: nat, marks: seq<nat>, script: seq<Round>, errors: map<nat, string>)
      requires |marks| < limit <= |script| && (marks != [] ==> script[|marks|].closed.None?)
      requires InARow(was.rows, start, marks, |was.rows|)
      requires RoundsRan(was.rows, was.proposals, start, next, marks, script)
      requires StoreGrows(was, Stored(), next) && EndedBy(script[|marks|], start, next, |was.rows|, errors)
      ensures EndedAfter(start, next, marks, |was.rows|, script, errors)
    {
      RoundsStill(was.rows, conversation.rows, was.proposals, conversation.proposals, start, next, marks, script,
                  |was.rows|);
    }

    lemma RanSo(was: Store, start: nat, next: nat, marks: seq<nat>, script: seq<Round>)
      requires |marks| < limit <= |script| && (marks != [] ==> script[|marks|].closed.None?)
      requires InARow(was.rows, start, marks, |was.rows|)
      requires RoundsRan(was.rows, was.proposals, start, next, marks, script)
      requires StoreGrows(was, Stored(), next) && RanRound(script[|marks|], start, next, |was.rows|)
      ensures RanRounds(start, next, marks + [|was.rows|], script)
    {
      RoundsStill(was.rows, conversation.rows, was.proposals, conversation.proposals, start, next, marks, script,
                  |was.rows|);
      OneMoreRound(conversation.rows, conversation.proposals, start, next, marks, |was.rows|, script,
                   script[|marks|]);
    }

    /** A round has run: these have so far, and nothing else happened. */
    ghost predicate Between(last: nat, start: nat, next: nat, marks: seq<nat>, script: seq<Round>)
      reads this, conversation
    {
      && RoundDone(Model()) && phase.owner == last && answer == "" && HasUser(conversation.rows)
      && marks != [] && marks[|marks| - 1] == last && RanRounds(start, next, marks, script)
    }

    /** Runs the next round of the script, its stream open. */
    method RunNextRound(script: seq<Round>, r: nat, ghost start: nat, ghost next: nat, ghost marks: seq<nat>)
        returns (over: bool, last: nat, ghost steps: seq<Step>)
      requires Valid() && phase.Streaming? && answer == "" && HasUser(conversation.rows)
      requires r < limit <= |script| && |marks| == r && RanRounds(start, next, marks, script)
      requires r > 0 ==> script[r].closed.None?
      modifies this`context, this`heldParts, this`shown, this`sent, this`phase, this`answer
      modifies conversation`rows, conversation`positions, conversation`errors, conversation`proposals, conversation`held
      ensures Valid() && Then(old(Model()), steps) == Some(Model()) && StoreGrows(old(Stored()), Stored(), next)
      ensures last == if over then 0 else old(|conversation.rows|)
      ensures if over then
                EndedAfter(start, next, marks, old(|conversation.rows|), script, old(conversation.errors))
              else
                conversation.errors == old(conversation.errors) && Between(last, start, next, marks + [last], script)
    {
      ghost var was := Stored();
      over, last, steps := RunRound(script[r], start, next);
      if over {
        last := 0;
        EndedSo(was, start, next, marks, script, old(conversation.errors));
      } else {
        RanSo(was, start, next, marks, script);
      }
    }

    /** Opens the next round, but for the first, and runs it. */
    method NextRoundOf(script: seq<Round>, r: nat, ghost start: nat, ghost next: nat, ghost marks: seq<nat>)
        returns (over: bool, last: nat, ghost steps: seq<Step>)
      requires Valid() && answer == "" && HasUser(conversation.rows)
      requires r < limit <= |script| && |marks| == r && RanRounds(start, next, marks, script)
      requires if r == 0 then phase.Streaming? && rounds == 0 else RoundDone(Model()) && rounds == r - 1
      modifies this`context, this`heldParts, this`shown, this`sent, this`rounds, this`phase, this`answer
      modifies conversation`rows, conversation`positions, conversation`errors, conversation`proposals, conversation`held
      ensures Valid() && Then(old(Model()), steps) == Some(Model()) && StoreGrows(old(Stored()), Stored(), next)
      ensures if over then
                EndedAfter(start, next, marks, old(|conversation.rows|), script, old(conversation.errors))
              else
                && last == old(|conversation.rows|) && conversation.errors == old(conversation.errors) && rounds == r
                && Between(last, start, next, marks + [last], script)
    {
      ghost var begin, more := Model(), [];
      over, last, steps := false, 0, [];
      if r > 0 {
        over, steps := OpenRound(script[r].closed);
      }
      if !over {
        over, last, more := RunNextRound(script, r, start, next, marks);
        steps := ThenJoin(begin, steps, more, Model());
      }
    }

    /** One more round of a turn that began so. */
    method TakeRound(script: seq<Round>, r: nat, ghost start: nat, ghost next: nat, ghost marks: seq<nat>,
                     ghost first: Store, ghost begin: State, ghost before: seq<Step>)
        returns (over: bool, last: nat, ghost steps: seq<Step>)
      requires Valid() && answer == "" && HasUser(conversation.rows)
      requires r < limit <= |script| && |marks| == r && RanRounds(start, next, marks, script)
      requires if r == 0 then phase.Streaming? && rounds == 0 else RoundDone(Model()) && rounds == r - 1
      requires Then(begin, before) == Some(Model()) && StoreGrows(first, Stored(), next)
      modifies this`context, this`heldParts, this`shown, this`sent, this`rounds, this`phase, this`answer
      modifies conversation`rows, conversation`positions, conversation`errors, conversation`proposals, conversation`held
      ensures Valid() && Then(begin, steps) == Some(Model()) && StoreGrows(first, Stored(), next)
      ensures if over then
                EndedAfter(start, next, marks, old(|conversation.rows|), script, old(conversation.errors))
              else
                && last == old(|conversation.rows|) && conversation.errors == old(conversation.errors) && rounds == r
                && Between(last, start, next, marks + [last], script)
    {
      ghost var was, more := Stored(), [];
      over, last, more := NextRoundOf(script, r, start, next, marks);
      steps := ThenJoin(begin, before, more, Model());
      StoreGrowsOn(first, was, Stored(), next);
    }

    /** After the last round that the limit allows. */
    method EndAtLimit(last: nat, ghost start: nat, ghost next: nat, ghost marks: seq<nat>, ghost script: seq<Round>,
                      ghost begin: State, ghost before: seq<Step>)
        returns (ghost steps: seq<Step>)
      requires Valid() && Then(begin, before) == Some(Model()) && |marks| == limit == rounds + 1
      requires Between(last, start, next, marks, script)
      modifies this`sent, this`phase, this`answer, conversation`errors
      ensures Valid() && Then(begin, steps) == Some(Model())
      ensures EndedAfter(start, next, marks, |conversation.rows|, script, old(conversation.errors))
    {
      ThenMore(begin, before, Model(), NextRound);
      steps := before + [NextRound];
      HitLimit(last);
    }

    /** The whole turn, once open: whatever it meets, it takes the conversation through its steps to an
        end, with its answer sent as events. Its rows, the error noted and the end are those that its
        rounds give. */
    method Events(script: seq<Round>) returns (ghost marks: seq<nat>, ghost end: nat, ghost steps: seq<Step>)
      requires Valid() && phase.Streaming? && answer == "" && rounds == 0 && HasUser(conversation.rows)
      requires shown.None? && 0 < limit <= |script|
      modifies this, conversation`rows, conversation`positions, conversation`errors, conversation`proposals
      modifies conversation`held
      ensures Valid() && Then(old(Model()), steps) == Some(Model())
      ensures EndedAfter(old(|conversation.rows|), old(|conversation.proposals|), marks, end, script,
                         old(conversation.errors))
      ensures StoreGrows(old(Stored()), Stored(), old(|conversation.proposals|))
    {
      ghost var begin, first := Model(), Stored();
      ghost var start, next := |conversation.rows|, |conversation.proposals|;
      marks, steps := [], [];
      var last, over := 0, false;
      for r := 0 to limit
        invariant Valid() && Then(begin, steps) == Some(Model()) && answer == "" && HasUser(conversation.rows)
        invariant if r == 0 then phase.Streaming? && rounds == 0
                  else rounds == r - 1 && Between(last, start, next, marks, script)
        invariant |marks| == r && RanRounds(start, next, marks, script)
        invariant conversation.errors == old(conversation.errors) && StoreGrows(first, Stored(), next)
      {
        end := |conversation.rows|;
        over, last, steps := TakeRound(script, r, start, next, marks, first, begin, steps);
        if over {
          return;
        }
        marks := marks + [end];
      }
      steps := EndAtLimit(last, start, next, marks, script, begin, steps);
      end := |conversation.rows|;
    }

    /** The stream closes, at its end or because the browser left: the claim is released. */
    method Close()
      requires Valid()
      modifies conversation`claimed
      ensures conversation.Valid() && !conversation.claimed
      ensures conversation.Idle() == Apply(old(Model()), Step.Close)
    {
      conversation.Release();
    }
  }

  lemma {:induction false} FedAsSteps(s: State, events: seq<Event>) returns (steps: seq<Step>)
    requires Reading(s) && Rounds.AllForward(events)
    ensures Then(s, steps) == Some(Rounds.Fed(s, events))
    decreases |events|
  {
    if events == [] {
      steps := [];
    } else {
      var before, last := events[..|events| - 1], events[|events| - 1];
      var step := if last.Delta? then ReadText(last.text) else NameTool(last.name);
      steps := FedAsSteps(s, before);
      assert Rounds.CanForward(last);
      ThenMore(s, steps, Rounds.Fed(s, before), step);
      steps := steps + [step];
    }
  }

  /** POST /api/chat: a message that no turn answers is refused, as is any while a turn runs. Another
      is stored under the claim, and the turn opened; when the first call cannot be opened the claim
      is released and the message stays. */
  method OpenChat(conversation: Conversation, text: string, limit: nat, reached: bool) returns (turn: Turn?)
    requires conversation.Valid() && limit > 0
    modifies conversation`rows, conversation`positions, conversation`claimed
    ensures conversation.Valid()
    ensures !IsAnswered(text) || old(conversation.claimed) ==>
              turn == null && conversation.claimed == old(conversation.claimed)
                && conversation.Idle() == old(conversation.Idle())
    ensures IsAnswered(text) && !old(conversation.claimed) ==>
              conversation.claimed == (turn != null) == reached
    ensures IsAnswered(text) && !old(conversation.claimed) && reached ==>
              && turn != null && fresh(turn) && turn.conversation == conversation && turn.Valid()
              && turn.Model() == Apply(old(conversation.Idle()), Step.Send(text, limit, true))
    ensures IsAnswered(text) && !old(conversation.claimed) ==>
              var rows := old(conversation.rows);
              var repeats := rows != [] && rows[|rows| - 1].role == User && rows[|rows| - 1].content == Some(text);
              conversation.rows ==
              rows + if repeats then [] else [Message(User, Some(text), [], "", Status.Complete, NoDetails)]
    ensures IsAnswered(text) && !old(conversation.claimed) && !reached ==>
              conversation.Idle() == Apply(old(conversation.Idle()), Step.Send(text, limit, false))
  {
    turn := null;
    if !IsAnswered(text) {
      return;
    }
    var won := conversation.Claim();
    if !won {
      return;
    }
    conversation.StoreUserMessage(text);
    if !reached {
      conversation.Release();
      return;
    }
    var held := conversation.FindHeldParts();
    var context := conversation.BuildModelContext(held);
    turn := new Turn(conversation, text, limit, context, held);
  }

  lemma HasUserStays(rows: seq<Message>, longer: seq<Message>)
    requires HasUser(rows) && rows <= longer
    ensures HasUser(longer)
  {
    var i :| 0 <= i < |rows| && rows[i].role == User;
    assert longer[i].role == User;
  }

  lemma ThenOne(s: State, step: Step)
    ensures Then(s, [step]) == Next(s, step)
  {
    AfterSnoc(Next, s, [], s, step);
    assert [] + [step] == [step];
  }

  lemma ThenMore(s: State, steps: seq<Step>, mid: State, step: Step)
    requires Then(s, steps) == Some(mid)
    ensures Then(s, steps + [step]) == Next(mid, step)
  {
    AfterSnoc(Next, s, steps, mid, step);
  }

  lemma ThenJoin(s: State, steps: seq<Step>, more: seq<Step>, after: State) returns (all: seq<Step>)
    requires Then(s, steps).Some? && Then(Then(s, steps).value, more) == Some(after)
    ensures all == steps + more && Then(s, all) == Some(after)
  {
    all := steps + more;
    AfterJoins(Next, s, steps, Then(s, steps).value, more);
  }

  lemma ProposedIs(s: State, parts: seq<Part>, made: Proposal, after: State)
    requires Enabled(s, Step.Propose(parts)) && after == AfterShowing(s, s.turn.value, made)
    requires made == Made(s.desk.proposals, s.thread.rows, parts, |s.thread.rows|, s.turn.value.push)
    ensures Next(s, Step.Propose(parts)) == Some(after)
  {
  }

  lemma WithoutStep(context: seq<ModelMessage>, m: ModelMessage, i: nat)
    requires i < |context| && context[i] != m && Without(context, m) == context[..i] + Without(context[i..], m)
    ensures Without(context, m) == context[..i + 1] + Without(context[i + 1..], m)
  {
    assert context[i..][1..] == context[i + 1..];
    assert context[..i] + [context[i]] == context[..i + 1];
    Assoc(context[..i], [context[i]], Without(context[i + 1..], m));
  }
}
