/** A conversation as its requests change it, one step at a time: the turns that answer messages, the
    summary drafts and their acceptance, and the proposals offered and confirmed. */
module Chat {
  import opened Wrappers
  import opened Text
  import opened Commands
  import opened Messages
  import opened Transcript
  import opened RawText
  import opened Proposals
  import opened Lifecycle

  const SEARCH_TOOL := "search_thoughts"
  const PROPOSE_TOOL := "propose_thought"
  const OUTPUT_LIMIT := "output_limit_reached"
  const LOOP_LIMIT := "tool_loop_limit"

  /** An error as the browser is told of it: its code, which is stored, and its message, which is not. */
  datatype Fault = Fault(code: string, message: string)

  // The messages, in short: what matters is that they differ.
  const THOUGHT_ONLY := "no answer"
  const OUT_OF_ROOM := "out of room"
  const KEPT_USING_TOOLS := "no end"
  const DID_NOT_FINISH := "not finished"

  function OutputLimitReached(thinkingOnly: bool): Fault {
    Fault(OUTPUT_LIMIT, if thinkingOnly then THOUGHT_ONLY else OUT_OF_ROOM)
  }

  function ToolLoopLimit(): Fault {
    Fault(LOOP_LIMIT, KEPT_USING_TOOLS)
  }

  /** What a turn sends to the browser. */
  datatype Event =
    | Delta(text: string)
    | ToolStarted(name: string)
    | ToolEnded(name: string, sources: Option<seq<Source>>)
    | Shown(proposal: nat, position: nat, parts: seq<Part>, replaced: Option<nat>)
    | Reported
    | Failure(fault: Fault)
    | Done

  /** How a turn ended: with a whole answer, one cut at the output limit or left blank, one whose
      stream broke, one stopped by any other error, or at the limit of its rounds. */
  datatype Ending = Whole | CutOff | BrokeOff | Stopped | AtLimit

  /** Reading a model call; running the calls of the row `owner`, `done` of them finished, with the
      proposal just written if the current one made it; the answer stored; or ended. */
  datatype Phase =
    | Streaming
    | Tools(owner: nat, done: nat, pending: Option<nat>)
    | Settled
    | Over(ending: Ending)

  /** A running turn: the row it answers, its limit of rounds and the rounds done, the context in
      memory, the held parts its note lists, the proposal it made (it may make one), the answer read
      so far in this round, and what it sent. */
  datatype Turn = Turn(
    from: nat,
    push: bool,
    limit: nat,
    rounds: nat,
    phase: Phase,
    context: seq<ModelMessage>,
    note: seq<Part>,
    shown: Option<nat>,
    answer: string,
    events: seq<Event>)

  datatype State = State(thread: Transcript, desk: Desk, turn: Option<Turn>)

  datatype Step =
    | Send(text: string, limit: nat, reached: bool)
    | ReadText(text: string)
    | NameTool(name: string)
    | Report
    | EndRound(calls: seq<Call>)
    | Propose(parts: seq<Part>)
    | Return(content: string, sources: Option<seq<Source>>)
    | NextRound
    | Finish(truncated: bool)
    | SayDone
    | Break(fault: Fault)
    | Stop(fault: Fault)
    | Close
    | DraftSummary(keepRecent: nat)
    | Accept(draft: nat, text: string)
    | Offer(parts: seq<Part>)
    | Confirm(proposal: nat, asked: seq<int>, accepted: bool)

  // --- The rows a turn stores -----------------------------------------------------------

  function UserRow(text: string): Message {
    Message(User, Some(text), [], "", Complete, NoDetails)
  }

  function AnswerRow(answer: string, calls: seq<Call>, status: Status): Message {
    Message(Assistant, OrNone(answer), calls, "", status, NoDetails)
  }

  function ResultRow(callId: string, content: string, details: Details): Message {
    Message(Tool, Some(content), [], callId, Complete, details)
  }

  /** The transcript with a user row for the text, or as it is if its last row is that already. */
  function Sent(t: Transcript, text: string): Transcript {
    if t.rows != [] && t.rows[|t.rows| - 1].role == User && t.rows[|t.rows| - 1].content == Some(text) then t
    else Stored(t, UserRow(text))
  }

  // --- The steps of a turn ----------------------------------------------------------------

  function Opened(s: State, text: string, limit: nat): Turn
    requires s.thread.rows != []
  {
    var held := HeldParts(s.desk);
    Turn(|s.thread.rows| - 1, IsPush(text), limit, 0, Streaming,
         BuildContext(s.thread.rows, s.thread.compacted, held), held, None, "", [])
  }

  function Told(turn: Turn, event: Event): Turn {
    turn.(events := turn.events + [event])
  }

  function Ended(turn: Turn, ending: Ending): Turn {
    turn.(phase := Over(ending), answer := "")
  }

  function AfterCalls(s: State, turn: Turn, calls: seq<Call>): State {
    State(Stored(s.thread, AnswerRow(turn.answer, calls, Complete)), s.desk,
          Some(turn.(phase := Tools(|s.thread.rows|, 0, None),
                     context := turn.context + [AssistantText(turn.answer, calls)],
                     answer := "")))
  }

  predicate RunsCall(s: State, turn: Turn) {
    && turn.phase.Tools? && turn.phase.owner < |s.thread.rows|
    && turn.phase.done < |s.thread.rows[turn.phase.owner].calls|
  }

  function CurrentCall(s: State, turn: Turn): Call
    requires RunsCall(s, turn)
  {
    s.thread.rows[turn.phase.owner].calls[turn.phase.done]
  }

  function AfterShowing(s: State, turn: Turn, made: Proposal): State
    requires turn.phase.Tools?
  {
    var p := |s.desk.proposals|;
    State(s.thread, Written(s.desk, made),
          Some(turn.(phase := turn.phase.(pending := Some(p)),
                     context := DropHeldNote(turn.context, turn.note), note := [], shown := Some(p),
                     events := turn.events + [Shown(p, made.position, made.parts, Replaces(s.desk))])))
  }

  function AfterProposal(s: State, turn: Turn, parts: seq<Part>): State
    requires turn.phase.Tools? && HasUser(s.thread.rows)
  {
    AfterShowing(s, turn, Made(s.desk.proposals, s.thread.rows, parts, |s.thread.rows|, turn.push))
  }

  function DetailsFor(turn: Turn, sources: Option<seq<Source>>): Details
    requires turn.phase.Tools?
  {
    if turn.phase.pending.Some? then ProposalShown(turn.phase.pending.value)
    else if sources.Some? then Sources(sources.value)
    else NoDetails
  }

  function AfterResult(s: State, turn: Turn, content: string, sources: Option<seq<Source>>): State
    requires RunsCall(s, turn)
  {
    var call := CurrentCall(s, turn);
    State(Stored(s.thread, ResultRow(call.id, content, DetailsFor(turn, sources))), s.desk,
          Some(turn.(phase := turn.phase.(done := turn.phase.done + 1, pending := None),
                     context := turn.context + [ToolResult(call.id, content)],
                     events := turn.events + [ToolEnded(call.name, sources)])))
  }

  function AfterRound(s: State, turn: Turn): State
    requires turn.phase.Tools?
  {
    if turn.rounds + 1 < turn.limit then
      s.(turn := Some(turn.(rounds := turn.rounds + 1, phase := Streaming)))
    else
      State(WithError(s.thread, turn.phase.owner, LOOP_LIMIT), s.desk,
            Some(Ended(Told(turn, Failure(ToolLoopLimit())), AtLimit)))
  }

  function AfterLast(s: State, turn: Turn, truncated: bool): State {
    if truncated || IsBlank(turn.answer) then
      AfterFailure(s, Told(turn, Failure(OutputLimitReached(IsBlank(turn.answer)))), Status.Cut, OUTPUT_LIMIT, CutOff)
    else
      State(Stored(s.thread, AnswerRow(turn.answer, [], Complete)), s.desk,
            Some(turn.(phase := Settled, answer := "")))
  }

  function AfterFailure(s: State, turn: Turn, status: Status, code: string, ending: Ending): State {
    State(WithError(Stored(s.thread, AnswerRow(turn.answer, [], status)), |s.thread.rows|, code), s.desk,
          Some(Ended(turn, ending)))
  }

  // --- All steps ----------------------------------------------------------------------------

  /** Whether a proposal may be asked for: the user said something, not compacted, since the last saved one. */
  predicate SaidSinceSaved(s: State) {
    exists i: nat | i < |s.thread.rows| ::
      i !in s.thread.compacted && Says(s.thread.rows, DiscussionStart(s.desk.proposals), i)
  }

  predicate Reading(s: State) {
    s.turn.Some? && s.turn.value.phase.Streaming?
  }

  predicate Settling(s: State) {
    s.turn.Some? && s.turn.value.phase.Settled?
  }

  predicate RoundDone(s: State) {
    && s.turn.Some? && s.turn.value.phase.Tools?
    && s.turn.value.phase.owner < |s.thread.rows|
    && s.turn.value.phase.done == |s.thread.rows[s.turn.value.phase.owner].calls|
  }

  /** When a step can happen. While a turn runs it has the claim, so only a confirm comes in between. */
  predicate Enabled(s: State, step: Step) {
    match step
    case Send(text, limit, _) => s.turn.None? && limit > 0
    case ReadText(text) => Reading(s) && text != ""
    case NameTool(name) => Reading(s) && name != ""
    case Report => Reading(s) || Settling(s)
    case EndRound(calls) => Reading(s) && calls != []
    case Propose(parts) =>
      && s.turn.Some? && RunsCall(s, s.turn.value) && HasUser(s.thread.rows)
      && CurrentCall(s, s.turn.value).name == PROPOSE_TOOL && s.turn.value.shown.None? && NewParts(parts)
    case Return(_, sources) =>
      && s.turn.Some? && RunsCall(s, s.turn.value)
      && (sources.Some? ==> CurrentCall(s, s.turn.value).name == SEARCH_TOOL && s.turn.value.phase.pending.None?)
    case NextRound => RoundDone(s)
    case Finish(_) => Reading(s)
    case SayDone => Settling(s)
    case Break(_) => Reading(s)
    case Stop(_) => s.turn.Some? && !s.turn.value.phase.Over?
    case Close => s.turn.Some?
    case DraftSummary(_) => s.turn.None?
    case Accept(draft, _) => s.turn.None? && draft < |s.thread.drafts|
    case Offer(parts) =>
      && s.turn.None? && HasUser(s.thread.rows) && NewParts(parts)
      && HeldParts(s.desk) == [] && SaidSinceSaved(s)
    case Confirm(_, _, _) => true
  }

  function Apply(s: State, step: Step): State
    requires Enabled(s, step)
  {
    match step
    case Send(text, limit, reached) =>
      var sent := s.(thread := Sent(s.thread, text));
      if reached then sent.(turn := Some(Opened(sent, text, limit))) else sent
    case ReadText(text) => s.(turn := Some(Told(s.turn.value, Delta(text)).(answer := s.turn.value.answer + text)))
    case NameTool(name) => s.(turn := Some(Told(s.turn.value, ToolStarted(name))))
    case Report => s.(turn := Some(Told(s.turn.value, Reported)))
    case EndRound(calls) => AfterCalls(s, s.turn.value, calls)
    case Propose(parts) => AfterProposal(s, s.turn.value, parts)
    case Return(content, sources) => AfterResult(s, s.turn.value, content, sources)
    case NextRound => AfterRound(s, s.turn.value)
    case Finish(truncated) => AfterLast(s, s.turn.value, truncated)
    case SayDone => s.(turn := Some(Ended(Told(s.turn.value, Done), Whole)))
    case Break(fault) => AfterFailure(s, Told(s.turn.value, Failure(fault)), Failed, fault.code, BrokeOff)
    case Stop(fault) => s.(turn := Some(Told(s.turn.value, Failure(fault)).(phase := Over(Stopped))))
    case Close => s.(turn := None)
    case DraftSummary(keepRecent) =>
      (match DraftNow(s.thread, keepRecent)
       case Some(draft) => s.(thread := Issued(s.thread, draft))
       case None => s)
    case Accept(draft, text) =>
      (match if IsBlank(text) then None else Accepted(s.thread, draft, Strip(text))
       case Some(thread) => s.(thread := thread)
       case None => s)
    case Offer(parts) =>
      s.(desk := Written(s.desk, Made(s.desk.proposals, s.thread.rows, parts, |s.thread.rows| - 1, false)))
    case Confirm(p, asked, accepted) => s.(desk := Confirmed(s.desk, p, asked, accepted))
  }

  const START := State(Transcript([], map[], {}, [], map[]), Desk([], None, []), None)

  predicate Run(states: seq<State>, steps: seq<Step>) {
    && |states| == |steps| + 1
    && states[0] == START
    && forall k | 0 <= k < |steps| :: Enabled(states[k], steps[k]) && states[k + 1] == Apply(states[k], steps[k])
  }
}
