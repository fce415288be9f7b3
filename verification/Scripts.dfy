/** What the rounds of a turn meet, and what they leave: the rows, the noted error and the end, said of
    what each round met and not of how the turn runs. */
module Scripts {
  import opened Wrappers
  import Text
  import opened Messages
  import opened Proposals
  import opened Lifecycle
  import opened Chat
  import opened Rounds

  // --- What a turn meets -------------------------------------------------------------------------

  const ALREADY_PROPOSED := "already proposed"
  const PROPOSAL_SHOWN := "shown to the user"

  /** What running a tool call meets: whether its arguments fit, with the message sent back if not;
      what a search finds, or the error that stops it; and the parts that a proposal call makes, if any fit. */
  datatype Outcome = Outcome(fit: bool, complaint: string, found: string, sources: seq<Source>, failure: Option<Fault>,
                             parts: seq<Part>)

  /** What a round meets: an error opening its stream, what the stream carries, an error that breaks
      it, one after it, and the outcome of each tool call. */
  datatype Round = Round(closed: Option<Fault>, choices: seq<Choice>, broken: Option<Fault>, late: Option<Fault>,
                         spare: int -> string, outcomes: nat -> Outcome)

  // --- What a stream carries ---------------------------------------------------------------------

  function TextIn(choices: seq<Choice>): string {
    if choices == [] then "" else TextIn(choices[..|choices| - 1]) + choices[|choices| - 1].content
  }

  function AllPieces(choices: seq<Choice>): seq<Piece> {
    if choices == [] then [] else AllPieces(choices[..|choices| - 1]) + choices[|choices| - 1].pieces
  }

  /** The last reason to finish that any choice gives. */
  function FinishIn(choices: seq<Choice>): string {
    if choices == [] then ""
    else if choices[|choices| - 1].finish != "" then choices[|choices| - 1].finish
    else FinishIn(choices[..|choices| - 1])
  }

  predicate Carry(tokens: seq<Token>, words: string, pieces: seq<Piece>, reason: string) {
    WordsIn(tokens) == words && PiecesIn(tokens) == pieces && ReasonIn(tokens) == reason
  }

  lemma FragmentCarries(tokens: seq<Token>, words: string, pieces: seq<Piece>, reason: string, piece: Piece)
    requires Carry(tokens, words, pieces, reason)
    ensures Carry(tokens + [Fragment(piece)], words, pieces + [piece], reason)
  {
    TokenSnoc(tokens, Fragment(piece));
  }

  lemma {:induction false} FragmentsCarry(seen: seq<Token>, words: string, had: seq<Piece>, reason: string,
                                          fragments: seq<Token>, pieces: seq<Piece>)
    requires Carry(seen, words, had, reason)
    requires |fragments| == |pieces| && forall k | 0 <= k < |pieces| :: fragments[k] == Fragment(pieces[k])
    ensures Carry(seen + fragments, words, had + pieces, reason)
    decreases |pieces|
  {
    if pieces == [] {
      Assoc(seen, [], []);
      Assoc(had, [], []);
    } else {
      var n := |pieces| - 1;
      FragmentsCarry(seen, words, had, reason, fragments[..n], pieces[..n]);
      FragmentCarries(seen + fragments[..n], words, had + pieces[..n], reason, pieces[n]);
      assert seen + fragments == seen + fragments[..n] + [Fragment(pieces[n])];
      assert had + pieces == had + pieces[..n] + [pieces[n]];
    }
  }

  lemma WordCarries(seen: seq<Token>, content: string)
    ensures var tokens := seen + WordOf(content);
            && WordsIn(tokens) == WordsIn(seen) + content
            && PiecesIn(tokens) == PiecesIn(seen) && ReasonIn(tokens) == ReasonIn(seen)
  {
    if content == "" {
      Assoc(seen, [], []);
      Assoc(WordsIn(seen), [], []);
    } else {
      TokenSnoc(seen, Word(content));
    }
  }

  lemma EndCarries(seen: seq<Token>, reason: string)
    ensures var tokens := seen + EndOf(reason);
            && WordsIn(tokens) == WordsIn(seen) && PiecesIn(tokens) == PiecesIn(seen)
            && ReasonIn(tokens) == if reason != "" then reason else ReasonIn(seen)
  {
    if reason == "" {
      Assoc(seen, [], []);
    } else {
      TokenSnoc(seen, End(reason));
    }
  }

  lemma {:induction false} StreamCarries(choices: seq<Choice>)
    ensures WordsIn(Stream(choices)) == TextIn(choices)
    ensures PiecesIn(Stream(choices)) == AllPieces(choices)
    ensures ReasonIn(Stream(choices)) == FinishIn(choices)
  {
    if choices != [] {
      var seen, choice := Stream(choices[..|choices| - 1]), choices[|choices| - 1];
      StreamCarries(choices[..|choices| - 1]);
      ChoiceCarries(seen, choice);
    }
  }

  lemma ChoiceCarries(seen: seq<Token>, choice: Choice)
    ensures var tokens := seen + Tokens(choice);
            && WordsIn(tokens) == WordsIn(seen) + choice.content
            && PiecesIn(tokens) == PiecesIn(seen) + choice.pieces
            && ReasonIn(tokens) == if choice.finish != "" then choice.finish else ReasonIn(seen)
  {
    var words, fragments, end := WordOf(choice.content), Fragments(choice.pieces), EndOf(choice.finish);
    WordCarries(seen, choice.content);
    FragmentsCarry(seen + words, WordsIn(seen + words), PiecesIn(seen + words), ReasonIn(seen + words), fragments,
                   choice.pieces);
    EndCarries(seen + words + fragments, choice.finish);
    Assoc(seen, words, fragments);
    Assoc(seen, words + fragments, end);
  }

  // --- The calls of a round ------------------------------------------------------------------------

  /** Some choice has a piece of a call. */
  predicate Asks(round: Round) {
    exists k | 0 <= k < |round.choices| :: round.choices[k].pieces != []
  }

  lemma {:induction false} AsksMeaning(round: Round, choices: seq<Choice>)
    ensures AllPieces(choices) != [] <==> exists k | 0 <= k < |choices| :: choices[k].pieces != []
  {
    if choices != [] {
      AsksMeaning(round, choices[..|choices| - 1]);
      assert forall k | 0 <= k < |choices| - 1 :: choices[..|choices| - 1][k] == choices[k];
    }
  }

  /** The call of an index: its argument pieces one after the other, its first name, and its last id
      or, when no piece has one, a spare one. */
  predicate IsCall(call: Call, pieces: seq<Piece>, index: int, spare: string) {
    && call.arguments == Arguments(pieces, index)
    && IsFirstName(pieces, index, call.name)
    && if forall k | 0 <= k < |pieces| :: pieces[k].index == index ==> pieces[k].id == "" then call.id == spare
       else IsLastId(pieces, index, call.id)
  }

  /** The calls are those of all indexes that a piece has, ascending. */
  ghost predicate AreCalls(calls: seq<Call>, indexes: seq<int>, pieces: seq<Piece>, spare: int -> string) {
    && |calls| == |indexes| && Ascending(indexes)
    && (forall i :: i in indexes <==> HasIndex(pieces, i))
    && forall k | 0 <= k < |calls| :: IsCall(calls[k], pieces, indexes[k], spare(indexes[k]))
  }

  ghost predicate AsksFor(round: Round, calls: seq<Call>) {
    exists indexes: seq<int> :: AreCalls(calls, indexes, AllPieces(round.choices), round.spare)
  }

  lemma CallAtMeaning(pieces: seq<Piece>, index: int, spare: string)
    requires HasIndex(pieces, index)
    ensures index in Collected(pieces) && IsCall(CallAt(Collected(pieces)[index], spare), pieces, index, spare)
  {
    CollectedMeaning(pieces, index);
    assert Held(Collected(pieces), index) == Collected(pieces)[index];
  }

  /** The calls put together from a round's stream are those that it asks for. */
  lemma CallsAreAsked(round: Round, indexes: seq<int>, calls: seq<Call>)
    requires Ascending(indexes) && |calls| == |indexes|
    requires forall i :: i in indexes <==> i in Collected(AllPieces(round.choices))
    requires forall k | 0 <= k < |indexes| ::
               indexes[k] in Collected(AllPieces(round.choices))
                 && calls[k] == CallAt(Collected(AllPieces(round.choices))[indexes[k]], round.spare(indexes[k]))
    ensures AsksFor(round, calls) && (calls != [] <==> Asks(round))
  {
    var pieces := AllPieces(round.choices);
    forall i
      ensures i in indexes <==> HasIndex(pieces, i)
    {
      CollectedMeaning(pieces, i);
    }
    forall k | 0 <= k < |calls|
      ensures IsCall(calls[k], pieces, indexes[k], round.spare(indexes[k]))
    {
      assert indexes[k] in indexes;
      CallAtMeaning(pieces, indexes[k], round.spare(indexes[k]));
    }
    assert AreCalls(calls, indexes, pieces, round.spare);
    AsksMeaning(round, round.choices);
    assert calls != [] ==> indexes[0] in indexes;
    assert pieces != [] ==> HasIndex(pieces, pieces[0].index);
  }

  // --- The rows of a round -----------------------------------------------------------------------------

  /** An assistant row of a turn. */
  predicate IsAnswerRow(row: Message, text: string, calls: seq<Call>, status: Status) {
    row == Message(Assistant, if text == "" then None else Some(text), calls, "", status, NoDetails)
  }

  predicate IsResultRow(row: Message, call: Call, content: string, details: Details) {
    row == Message(Tool, Some(content), [], call.id, Complete, details)
  }

  predicate AddsAnswer(rows: seq<Message>, longer: seq<Message>, text: string, calls: seq<Call>, status: Status) {
    |longer| == |rows| + 1 && rows <= longer && IsAnswerRow(longer[|rows|], text, calls, status)
  }

  predicate AddsResult(rows: seq<Message>, longer: seq<Message>, call: Call, content: string, details: Details) {
    |longer| == |rows| + 1 && rows <= longer && IsResultRow(longer[|rows|], call, content, details)
  }

  /** A search that an error stops, and with it the turn. */
  predicate Stops(call: Call, outcome: Outcome) {
    outcome.fit && call.name == SEARCH_TOOL && outcome.failure.Some?
  }

  /** A call with a proposal that fits. */
  predicate Makes(call: Call, outcome: Outcome) {
    outcome.fit && call.name == PROPOSE_TOOL && NewParts(outcome.parts)
  }

  /** What a call that does not stop the turn is answered: a search what it finds; a proposal that it
      is shown, if it is the turn's first; any other call what is wrong with it. */
  predicate IsAnswerTo(row: Message, call: Call, outcome: Outcome, already: bool, next: nat) {
    if outcome.fit && call.name == SEARCH_TOOL then IsResultRow(row, call, outcome.found, Sources(outcome.sources))
    else if outcome.fit && call.name == PROPOSE_TOOL && already then
      IsResultRow(row, call, ALREADY_PROPOSED, NoDetails)
    else if Makes(call, outcome) then IsResultRow(row, call, PROPOSAL_SHOWN, ProposalShown(next))
    else IsResultRow(row, call, outcome.complaint, NoDetails)
  }

  /** A row from `start` up to i shows a proposal. */
  predicate HasShown(rows: seq<Message>, start: nat, i: nat)
    requires i <= |rows|
  {
    exists k | start <= k < i :: rows[k].details.ProposalShown?
  }

  /** Row i answers the call. The turn's rows start at `start`, and the proposal it makes is `next`. */
  predicate AnswersCall(rows: seq<Message>, proposals: seq<Proposal>, start: nat, next: nat, i: nat, call: Call,
                        outcome: Outcome) {
    && i < |rows| && !Stops(call, outcome)
    && IsAnswerTo(rows[i], call, outcome, HasShown(rows, start, i), next)
    && (rows[i].details.ProposalShown? ==>
          next < |proposals| && proposals[next].parts == outcome.parts && proposals[next].position == i)
  }

  /** The first n of these calls are answered, in order, by the rows from `base` on. */
  predicate AnswersCalls(rows: seq<Message>, proposals: seq<Proposal>, start: nat, next: nat, base: nat,
                         calls: seq<Call>, outcomes: nat -> Outcome, n: nat)
    requires n <= |calls|
  {
    forall j | 0 <= j < n :: AnswersCall(rows, proposals, start, next, base + j, calls[j], outcomes(j))
  }

  /** The round whose rows start at `at` asked for calls, and all of them are answered. */
  ghost predicate RoundRan(rows: seq<Message>, proposals: seq<Proposal>, start: nat, next: nat, at: nat,
                           round: Round) {
    && at < |rows| && IsAnswerRow(rows[at], TextIn(round.choices), rows[at].calls, Complete)
    && rows[at].calls != [] && AsksFor(round, rows[at].calls)
    && AnswersCalls(rows, proposals, start, next, at + 1, rows[at].calls, round.outcomes, |rows[at].calls|)
  }

  predicate ReadWhole(round: Round) {
    round.broken.None? && round.late.None?
  }

  // --- How a turn ends -------------------------------------------------------------------------------------

  /** The one row that ends a turn: the answer of a round without calls, or of one that broke. */
  predicate EndsWithRow(rows: seq<Message>, at: nat, text: string, status: Status) {
    |rows| == at + 1 && IsAnswerRow(rows[at], text, [], status)
  }

  /** A search's error stopped the round's calls: those before it are answered. */
  ghost predicate SearchStopped(rows: seq<Message>, proposals: seq<Proposal>, start: nat, next: nat, at: nat,
                                round: Round, fault: Fault) {
    && at < |rows| && IsAnswerRow(rows[at], TextIn(round.choices), rows[at].calls, Complete)
    && AsksFor(round, rows[at].calls)
    && var n := |rows| - at - 1;
    && n < |rows[at].calls|
    && AnswersCalls(rows, proposals, start, next, at + 1, rows[at].calls, round.outcomes, n)
    && Stops(rows[at].calls[n], round.outcomes(n)) && round.outcomes(n).failure == Some(fault)
  }

  /** A turn's last round, its stream opened, ended it so. `errors` are those noted before. */
  ghost predicate RoundEnds(rows: seq<Message>, proposals: seq<Proposal>, start: nat, next: nat, at: nat, round: Round,
                            errors: map<nat, string>, after: map<nat, string>, ending: Ending, told: Event) {
    var text := TextIn(round.choices);
    match ending
    case Whole =>
      && ReadWhole(round) && !Asks(round) && FinishIn(round.choices) != "length" && !Text.IsBlank(text)
      && EndsWithRow(rows, at, text, Complete) && after == errors && told == Done
    case CutOff =>
      && ReadWhole(round) && !Asks(round) && (FinishIn(round.choices) == "length" || Text.IsBlank(text))
      && EndsWithRow(rows, at, text, Status.Cut) && after == errors[at := OUTPUT_LIMIT]
      && told == Failure(Fault(OUTPUT_LIMIT, if Text.IsBlank(text) then THOUGHT_ONLY else OUT_OF_ROOM))
    case BrokeOff =>
      && round.broken.Some?
      && EndsWithRow(rows, at, text, Failed) && after == errors[at := round.broken.value.code]
      && told == Failure(round.broken.value)
    case Stopped =>
      && round.broken.None? && after == errors && told.Failure?
      && (|| (round.late == Some(told.fault) && |rows| == at)
          || (ReadWhole(round) && Asks(round)
              && SearchStopped(rows, proposals, start, next, at, round, told.fault)))
    case AtLimit => false
  }

  /** Where the rows after the first n rounds start, each with a row of its own and one for each call. */
  predicate InARow(rows: seq<Message>, start: nat, marks: seq<nat>, end: nat) {
    && (if marks == [] then end == start else marks[0] == start)
    && forall r | 0 <= r < |marks| :: MarkFits(rows, marks, end, r)
  }

  predicate MarkFits(rows: seq<Message>, marks: seq<nat>, end: nat, r: nat)
    requires r < |marks|
  {
    && marks[r] < |rows|
    && (if r + 1 < |marks| then marks[r + 1] else end) == marks[r] + 1 + |rows[marks[r]].calls|
  }

  /** These rounds, the first of the script, asked for calls, and all ran. */
  ghost predicate RoundsRan(rows: seq<Message>, proposals: seq<Proposal>, start: nat, next: nat, marks: seq<nat>,
                            script: seq<Round>) {
    && |marks| <= |script|
    && forall r | 0 <= r < |marks| ::
         && (r > 0 ==> script[r].closed.None?) && ReadWhole(script[r])
         && RoundRan(rows, proposals, start, next, marks[r], script[r])
  }

  /** How the turn ends once these rounds have run, with its rows up to `end`. */
  ghost predicate TurnEnds(rows: seq<Message>, proposals: seq<Proposal>, start: nat, next: nat, marks: seq<nat>,
                           end: nat, script: seq<Round>, limit: nat, errors: map<nat, string>,
                           after: map<nat, string>, ending: Ending, told: Event) {
    var n := |marks|;
    if n == limit then
      && n > 0 && ending == AtLimit && |rows| == end
      && after == errors[marks[n - 1] := LOOP_LIMIT] && told == Failure(Fault(LOOP_LIMIT, KEPT_USING_TOOLS))
    else
      && n < |script|
      && if n > 0 && script[n].closed.Some? then
           ending == Stopped && |rows| == end && after == errors && told == Failure(script[n].closed.value)
         else
           RoundEnds(rows, proposals, start, next, end, script[n], errors, after, ending, told)
  }

  // --- As rows are added --------------------------------------------------------------------------------------

  /** The turn's own proposal, if it is made already, stays as it is. */
  predicate KeepsMade(before: seq<Proposal>, after: seq<Proposal>, next: nat) {
    next < |before| ==> next < |after| && after[next] == before[next]
  }

  /** What a turn has stored and made so far. */
  datatype Store = Store(rows: seq<Message>, proposals: seq<Proposal>, held: Option<nat>, shown: Option<nat>)

  /** Rows are added and the turn's proposal stays; none is written or held but with that one. */
  predicate StoreGrows(before: Store, after: Store, next: nat) {
    && before.rows <= after.rows && KeepsMade(before.proposals, after.proposals, next)
    && (after.shown == before.shown ==> after.proposals == before.proposals && after.held == before.held)
    && (before.shown.Some? ==> after.shown == before.shown)
  }

  lemma StoreGrowsOn(a: Store, b: Store, c: Store, next: nat)
    requires StoreGrows(a, b, next) && StoreGrows(b, c, next)
    ensures StoreGrows(a, c, next)
  {
  }

  lemma AnswersStill(rows: seq<Message>, longer: seq<Message>, before: seq<Proposal>, after: seq<Proposal>, start: nat,
                     next: nat, i: nat, call: Call, outcome: Outcome)
    requires rows <= longer && KeepsMade(before, after, next)
    requires AnswersCall(rows, before, start, next, i, call, outcome)
    ensures AnswersCall(longer, after, start, next, i, call, outcome)
  {
    assert HasShown(longer, start, i) <==> HasShown(rows, start, i);
  }

  lemma AllAnswerStill(rows: seq<Message>, longer: seq<Message>, before: seq<Proposal>, after: seq<Proposal>,
                       start: nat, next: nat, base: nat, calls: seq<Call>, outcomes: nat -> Outcome, n: nat)
    requires rows <= longer && KeepsMade(before, after, next) && n <= |calls|
    requires AnswersCalls(rows, before, start, next, base, calls, outcomes, n)
    ensures AnswersCalls(longer, after, start, next, base, calls, outcomes, n)
  {
    forall j | 0 <= j < n
      ensures AnswersCall(longer, after, start, next, base + j, calls[j], outcomes(j))
    {
      AnswersStill(rows, longer, before, after, start, next, base + j, calls[j], outcomes(j));
    }
  }

  lemma RanStill(rows: seq<Message>, longer: seq<Message>, before: seq<Proposal>, after: seq<Proposal>, start: nat,
                 next: nat, at: nat, round: Round)
    requires rows <= longer && KeepsMade(before, after, next)
    requires RoundRan(rows, before, start, next, at, round)
    ensures RoundRan(longer, after, start, next, at, round)
  {
    AllAnswerStill(rows, longer, before, after, start, next, at + 1, rows[at].calls, round.outcomes, |rows[at].calls|);
  }

  lemma RoundsStill(rows: seq<Message>, longer: seq<Message>, before: seq<Proposal>, after: seq<Proposal>, start: nat,
                    next: nat, marks: seq<nat>, script: seq<Round>, end: nat)
    requires rows <= longer && KeepsMade(before, after, next)
    requires RoundsRan(rows, before, start, next, marks, script) && InARow(rows, start, marks, end)
    ensures RoundsRan(longer, after, start, next, marks, script) && InARow(longer, start, marks, end)
  {
    forall r | 0 <= r < |marks|
      ensures RoundRan(longer, after, start, next, marks[r], script[r])
    {
      RanStill(rows, longer, before, after, start, next, marks[r], script[r]);
    }
    forall r | 0 <= r < |marks|
      ensures MarkFits(longer, marks, end, r)
    {
      assert MarkFits(rows, marks, end, r);
    }
  }

  lemma OneMoreRound(rows: seq<Message>, proposals: seq<Proposal>, start: nat, next: nat, marks: seq<nat>, end: nat,
                     script: seq<Round>, round: Round)
    requires |marks| < |script| && round == script[|marks|]
    requires RoundsRan(rows, proposals, start, next, marks, script) && InARow(rows, start, marks, end)
    requires (marks != [] ==> round.closed.None?) && ReadWhole(round)
    requires RoundRan(rows, proposals, start, next, end, round)
    ensures RoundsRan(rows, proposals, start, next, marks + [end], script)
    ensures InARow(rows, start, marks + [end], end + 1 + |rows[end].calls|)
  {
    var longer := marks + [end];
    forall r | 0 <= r < |longer|
      ensures (r > 0 ==> script[r].closed.None?) && ReadWhole(script[r])
      ensures RoundRan(rows, proposals, start, next, longer[r], script[r])
    {
      assert r < |marks| ==> longer[r] == marks[r];
    }
    MoreInARow(rows, start, marks, end);
  }

  lemma MoreInARow(rows: seq<Message>, start: nat, marks: seq<nat>, end: nat)
    requires InARow(rows, start, marks, end) && end < |rows|
    ensures InARow(rows, start, marks + [end], end + 1 + |rows[end].calls|)
  {
    var longer, last := marks + [end], end + 1 + |rows[end].calls|;
    forall r | 0 <= r < |longer|
      ensures MarkFits(rows, longer, last, r)
    {
      assert r < |marks| ==> MarkFits(rows, marks, end, r);
    }
  }

  lemma ShownSnoc(rows: seq<Message>, longer: seq<Message>, start: nat)
    requires rows <= longer && |longer| == |rows| + 1 && start <= |rows|
    ensures HasShown(longer, start, |longer|) <==>
              HasShown(rows, start, |rows|) || longer[|rows|].details.ProposalShown?
  {
  }

  /** One more call is answered, by the row just stored. */
  lemma NextAnswered(rows: seq<Message>, longer: seq<Message>, before: seq<Proposal>, after: seq<Proposal>, start: nat,
                     next: nat, base: nat, calls: seq<Call>, outcomes: nat -> Outcome, k: nat)
    requires k < |calls| && |rows| == base + k && start <= base && rows <= longer && |longer| == |rows| + 1
    requires var already := HasShown(rows, start, |rows|);
             && |before| == next + (if already then 1 else 0)
             && IsAnswerTo(longer[|rows|], calls[k], outcomes(k), already, |before|)
             && if Makes(calls[k], outcomes(k)) && !already then
                  |after| == next + 1 && after[next].parts == outcomes(k).parts && after[next].position == |rows|
                else after == before
    requires !Stops(calls[k], outcomes(k)) && AnswersCalls(rows, before, start, next, base, calls, outcomes, k)
    ensures AnswersCalls(longer, after, start, next, base, calls, outcomes, k + 1)
    ensures KeepsMade(before, after, next)
    ensures HasShown(longer, start, |longer|) <==> HasShown(rows, start, |rows|) || Makes(calls[k], outcomes(k))
  {
    ShownSnoc(rows, longer, start);
    AllAnswerStill(rows, longer, before, after, start, next, base, calls, outcomes, k);
    assert HasShown(longer, start, |rows|) <==> HasShown(rows, start, |rows|);
    assert AnswersCall(longer, after, start, next, base + k, calls[k], outcomes(k));
  }

  // --- When each ending is met ------------------------------------------------------------------------------------

  lemma WithoutLast(a: seq<int>)
    requires Ascending(a) && a != []
    ensures forall i :: i in a[..|a| - 1] <==> i in a && i != a[|a| - 1]
    ensures forall i | i in a :: i <= a[|a| - 1]
  {
    assert a == a[..|a| - 1] + [a[|a| - 1]];
  }

  lemma SameBut(a: seq<int>, b: seq<int>, p: seq<int>, q: seq<int>, x: int)
    requires forall i :: i in a <==> i in b
    requires forall i :: i in p <==> i in a && i != x
    requires forall i :: i in q <==> i in b && i != x
    ensures forall i :: i in p <==> i in q
  {
  }

  lemma {:induction false} AscendingUnique(a: seq<int>, b: seq<int>)
    requires Ascending(a) && Ascending(b) && forall i :: i in a <==> i in b
    ensures a == b
    decreases |a|
  {
    assert a != [] ==> a[0] in a;
    assert b != [] ==> b[0] in b;
    if a != [] {
      WithoutLast(a);
      WithoutLast(b);
      var x, y := a[|a| - 1], b[|b| - 1];
      assert x in a && y in b;
      assert x in b && y in a;
      assert x == y;
      SameBut(a, b, a[..|a| - 1], b[..|b| - 1], x);
      AscendingUnique(a[..|a| - 1], b[..|b| - 1]);
      assert a == a[..|a| - 1] + [x] && b == b[..|b| - 1] + [x];
    }
  }

  lemma FirstNameUnique(pieces: seq<Piece>, index: int, a: string, b: string)
    requires IsFirstName(pieces, index, a) && IsFirstName(pieces, index, b)
    ensures a == b
  {
    OneStartEach(pieces, index);
  }

  lemma LastIdUnique(pieces: seq<Piece>, index: int, a: string, b: string)
    requires IsLastId(pieces, index, a) && IsLastId(pieces, index, b)
    ensures a == b
  {
    if j, k :| 0 <= j < |pieces| && 0 <= k < |pieces| && pieces[j].index == index == pieces[k].index
               && Identifies(pieces, j) && Identifies(pieces, k) && a == pieces[j].id && b == pieces[k].id {
      assert j == k;
    }
  }

  /** A round asks for one list of calls. */
  lemma CallsUnique(round: Round, a: seq<Call>, b: seq<Call>)
    requires AsksFor(round, a) && AsksFor(round, b)
    ensures a == b
  {
    var pieces := AllPieces(round.choices);
    var i: seq<int> :| AreCalls(a, i, pieces, round.spare);
    var j: seq<int> :| AreCalls(b, j, pieces, round.spare);
    AscendingUnique(i, j);
    forall k | 0 <= k < |a|
      ensures a[k] == b[k]
    {
      CallUnique(a[k], b[k], pieces, i[k], round.spare(i[k]));
    }
  }

  lemma CallUnique(a: Call, b: Call, pieces: seq<Piece>, index: int, spare: string)
    requires IsCall(a, pieces, index, spare) && IsCall(b, pieces, index, spare)
    ensures a == b
  {
    FirstNameUnique(pieces, index, a.name, b.name);
    if !(forall k | 0 <= k < |pieces| :: pieces[k].index == index ==> pieces[k].id == "") {
      LastIdUnique(pieces, index, a.id, b.id);
    }
  }

  /** One of the calls that the round asks for is a search that an error stops. */
  ghost predicate HasStop(round: Round) {
    exists calls: seq<Call>, j :: AsksFor(round, calls) && 0 <= j < |calls| && Stops(calls[j], round.outcomes(j))
  }

  /** Round r is read whole and asks for calls, and nothing stops them. */
  ghost predicate GoesOn(script: seq<Round>, r: nat)
    requires r < |script|
  {
    && (r > 0 ==> script[r].closed.None?) && ReadWhole(script[r])
    && Asks(script[r]) && !HasStop(script[r])
  }

  /** How a turn ends in round r, when that does not go on. */
  function EndingIn(script: seq<Round>, r: nat): Ending
    requires r < |script|
  {
    var round := script[r];
    if r > 0 && round.closed.Some? then Stopped
    else if round.broken.Some? then BrokeOff
    else if round.late.Some? || Asks(round) then Stopped
    else if FinishIn(round.choices) == "length" || Text.IsBlank(TextIn(round.choices)) then CutOff
    else Whole
  }

  lemma RanGoesOn(rows: seq<Message>, proposals: seq<Proposal>, start: nat, next: nat, at: nat, round: Round)
    requires RoundRan(rows, proposals, start, next, at, round)
    ensures Asks(round) && !HasStop(round)
  {
    var calls := rows[at].calls;
    AsksIfCalls(round, calls);
    forall others: seq<Call>, j | AsksFor(round, others) && 0 <= j < |others|
      ensures !Stops(others[j], round.outcomes(j))
    {
      CallsUnique(round, calls, others);
      assert AnswersCall(rows, proposals, start, next, at + 1 + j, calls[j], round.outcomes(j));
    }
  }

  lemma AsksIfCalls(round: Round, calls: seq<Call>)
    requires AsksFor(round, calls) && calls != []
    ensures Asks(round)
  {
    var indexes: seq<int> :| AreCalls(calls, indexes, AllPieces(round.choices), round.spare);
    assert indexes[0] in indexes;
    AsksMeaning(round, round.choices);
  }

  /** A turn runs its first rounds while each goes on, and no more than the limit; it ends at the limit
      exactly when all of those go on, and else as the first round that does not says. */
  lemma EndsExactly(rows: seq<Message>, proposals: seq<Proposal>, start: nat, next: nat, marks: seq<nat>, end: nat,
                    script: seq<Round>, limit: nat, errors: map<nat, string>, after: map<nat, string>,
                    ending: Ending, told: Event)
    requires |marks| <= limit <= |script| && RoundsRan(rows, proposals, start, next, marks, script)
    requires TurnEnds(rows, proposals, start, next, marks, end, script, limit, errors, after, ending, told)
    ensures forall r | 0 <= r < |marks| :: GoesOn(script, r)
    ensures |marks| < limit ==> !GoesOn(script, |marks|)
    ensures ending == if |marks| == limit then AtLimit else EndingIn(script, |marks|)
    ensures ending == AtLimit <==> forall r | 0 <= r < limit :: GoesOn(script, r)
  {
    forall r | 0 <= r < |marks|
      ensures GoesOn(script, r)
    {
      RanGoesOn(rows, proposals, start, next, marks[r], script[r]);
    }
    if |marks| < limit {
      LastDoesNot(rows, proposals, start, next, marks, end, script, limit, errors, after, ending, told);
    }
  }

  lemma LastDoesNot(rows: seq<Message>, proposals: seq<Proposal>, start: nat, next: nat, marks: seq<nat>, end: nat,
                    script: seq<Round>, limit: nat, errors: map<nat, string>, after: map<nat, string>,
                    ending: Ending, told: Event)
    requires |marks| < limit <= |script|
    requires TurnEnds(rows, proposals, start, next, marks, end, script, limit, errors, after, ending, told)
    ensures !GoesOn(script, |marks|) && ending == EndingIn(script, |marks|) && ending != AtLimit
  {
    var round := script[|marks|];
    if !(marks != [] && round.closed.Some?) && ending == Stopped && ReadWhole(round) {
      var calls, n := rows[end].calls, |rows| - end - 1;
      assert AsksFor(round, calls) && Stops(calls[n], round.outcomes(n));
    }
  }
}
