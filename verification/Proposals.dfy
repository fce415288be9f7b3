/** Proposals: writing and holding one, and saving its parts as thoughts. */
module Proposals {
  import opened Wrappers
  import opened Messages
  import opened RawText

  /** A proposal's id is its place in the order the proposals were written in. */
  datatype Proposal = Proposal(position: nat, from: nat, to: nat, rawText: string, parts: seq<Part>,
                               replacedBy: Option<nat>)

  /** A conversation's proposals, the one it holds, and the thoughts saved from them: for each
      thought, the proposal it was saved from. */
  datatype Desk = Desk(proposals: seq<Proposal>, held: Option<nat>, thoughts: seq<nat>)

  predicate HasSaved(parts: seq<Part>) {
    exists i | 0 <= i < |parts| :: parts[i].thought.Some?
  }

  predicate HasUnsaved(parts: seq<Part>) {
    exists i | 0 <= i < |parts| :: parts[i].thought.None?
  }

  lemma {:induction false} UnsavedMeaning(parts: seq<Part>)
    ensures Unsaved(parts) != [] <==> HasUnsaved(parts)
  {
    if parts != [] {
      UnsavedMeaning(parts[1..]);
      assert HasUnsaved(parts[1..]) ==> HasUnsaved(parts) by {
        if i :| 0 <= i < |parts| - 1 && parts[1..][i].thought.None? {
          assert parts[i + 1].thought.None?;
        }
      }
    }
  }

  // --- The discussion a proposal keeps -------------------------------------------------

  /** The proposals by position, those of one position in the order they were written in. */
  function Listed(proposals: seq<Proposal>, n: nat): (order: seq<nat>)
    requires n <= |proposals|
    ensures forall k | 0 <= k < |order| :: order[k] < n
  {
    if n == 0 then [] else Inserted(proposals, Listed(proposals, n - 1), n - 1)
  }

  function Inserted(proposals: seq<Proposal>, order: seq<nat>, p: nat): (longer: seq<nat>)
    requires p < |proposals| && forall k | 0 <= k < |order| :: order[k] < p
    ensures forall k | 0 <= k < |longer| :: longer[k] <= p
  {
    if order == [] || proposals[order[|order| - 1]].position <= proposals[p].position then order + [p]
    else Inserted(proposals, order[..|order| - 1], p) + [order[|order| - 1]]
  }

  /** The position after the last of these proposals with a saved part, or the start. */
  function StartAfter(proposals: seq<Proposal>, order: seq<nat>): nat
    requires forall k | 0 <= k < |order| :: order[k] < |proposals|
  {
    if order == [] then 0
    else
      var last := proposals[order[|order| - 1]];
      if HasSaved(last.parts) then last.to + 1 else StartAfter(proposals, order[..|order| - 1])
  }

  function DiscussionStart(proposals: seq<Proposal>): nat {
    StartAfter(proposals, Listed(proposals, |proposals|))
  }

  // --- Writing ------------------------------------------------------------------------

  /** The held proposal's parts, if one with an unsaved part is held. */
  function HeldParts(desk: Desk): seq<Part> {
    match desk.held
    case Some(p) => if p < |desk.proposals| && HasUnsaved(desk.proposals[p].parts) then desk.proposals[p].parts else []
    case None => []
  }

  /** The held proposal that a new one replaces. */
  function Replaces(desk: Desk): Option<nat> {
    if HeldParts(desk) == [] then None else desk.held
  }

  /** The proposals once a new one is held: the one it replaces, if any, names it. */
  function Superseded(desk: Desk): (earlier: seq<Proposal>)
    ensures |earlier| == |desk.proposals|
  {
    match Replaces(desk)
    case Some(q) => desk.proposals[q := desk.proposals[q].(replacedBy := Some(|desk.proposals|))]
    case None => desk.proposals
  }

  /** A proposal made now, with its raw text. */
  function Made(proposals: seq<Proposal>, rows: seq<Message>, parts: seq<Part>, position: nat, push: bool): Proposal
    requires HasUser(rows)
  {
    var raw := RawTextFor(rows, DiscussionStart(proposals), push);
    Proposal(position, raw.from, raw.to, raw.text, parts, None)
  }

  /** The proposal written and held. */
  function Written(desk: Desk, made: Proposal): Desk {
    Desk(Superseded(desk) + [made], Some(|desk.proposals|), desk.thoughts)
  }

  // --- Confirming ---------------------------------------------------------------------

  datatype Answer =
    | Saved(thought: nat)
    | NotFound
    | Invalid
    | PartSaved
    | Refused

  /** The parts with those asked for saved as this thought. */
  function WithThought(parts: seq<Part>, asked: seq<int>, thought: nat): (saved: seq<Part>)
    ensures |saved| == |parts|
  {
    seq(|parts|, i requires 0 <= i < |parts| => if i in asked then parts[i].(thought := Some(thought)) else parts[i])
  }

  predicate Within(asked: seq<int>, count: nat) {
    forall k | 0 <= k < |asked| :: 0 <= asked[k] < count
  }

  /** One part, or every part. */
  predicate OneOrAll(asked: seq<int>, count: nat) {
    || (forall k | 0 <= k < |asked| :: asked[k] == asked[0])
    || (forall i | 0 <= i < count :: i in asked)
  }

  /** What a confirm of these parts answers, given whether the thought's fields and category are accepted. */
  function Answered(desk: Desk, p: nat, asked: seq<int>, accepted: bool): Answer {
    if p >= |desk.proposals| then NotFound
    else
      var parts := desk.proposals[p].parts;
      if asked == [] || !Within(asked, |parts|) || !OneOrAll(asked, |parts|) then Invalid
      else if
        && parts[asked[0]].thought.Some?
        && forall k | 0 <= k < |asked| :: parts[asked[k]].thought == parts[asked[0]].thought
      then
        Saved(parts[asked[0]].thought.value)
      else if exists k | 0 <= k < |asked| :: parts[asked[k]].thought.Some? then PartSaved
      else if !accepted then Refused
      else Saved(|desk.thoughts|)
  }

  /** Whether the confirm stores a thought. */
  predicate Stores(desk: Desk, p: nat, asked: seq<int>, accepted: bool) {
    && p < |desk.proposals| && accepted
    && asked != [] && Within(asked, |desk.proposals[p].parts|) && OneOrAll(asked, |desk.proposals[p].parts|)
    && forall k | 0 <= k < |asked| :: desk.proposals[p].parts[asked[k]].thought.None?
  }

  function Confirmed(desk: Desk, p: nat, asked: seq<int>, accepted: bool): Desk {
    if Stores(desk, p, asked, accepted) then
      var parts := WithThought(desk.proposals[p].parts, asked, |desk.thoughts|);
      Desk(desk.proposals[p := desk.proposals[p].(parts := parts)],
           if desk.held == Some(p) && !HasUnsaved(parts) then None else desk.held,
           desk.thoughts + [p])
    else desk
  }
}
