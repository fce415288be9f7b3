/** What writing and confirming keep of every proposal. */
module Lifecycle {
  import opened Wrappers
  import opened Messages
  import opened Proposals

  // --- Saved parts and thoughts ------------------------------------------------------

  /** Each saved part names a thought saved from its proposal. */
  predicate PartsSound(thoughts: seq<nat>, p: nat, parts: seq<Part>) {
    && parts != []
    && forall i | 0 <= i < |parts| && parts[i].thought.Some? ::
         parts[i].thought.value < |thoughts| && thoughts[parts[i].thought.value] == p
  }

  /** Two parts share a thought only when all parts do. */
  predicate Merged(parts: seq<Part>) {
    forall i, j, k | 0 <= i < j < |parts| && 0 <= k < |parts| ::
      parts[i].thought.Some? && parts[i].thought == parts[j].thought ==> parts[k].thought == parts[i].thought
  }

  predicate Names(parts: seq<Part>, thought: nat) {
    exists i | 0 <= i < |parts| :: parts[i].thought == Some(thought)
  }

  /** The proposal held is the last one written, while it has an unsaved part. */
  function ShouldHold(proposals: seq<Proposal>): Option<nat> {
    if proposals != [] && HasUnsaved(proposals[|proposals| - 1].parts) then Some(|proposals| - 1) else None
  }

  /** A proposal can be replaced only by the one written next. */
  predicate ReplacedSound(proposals: seq<Proposal>) {
    forall p | 0 <= p < |proposals| && proposals[p].replacedBy.Some? ::
      proposals[p].replacedBy == Some(p + 1) && p + 1 < |proposals|
  }

  predicate ThoughtsSound(desk: Desk) {
    forall t | 0 <= t < |desk.thoughts| ::
      desk.thoughts[t] < |desk.proposals| && Names(desk.proposals[desk.thoughts[t]].parts, t)
  }

  predicate ProposalsSound(desk: Desk) {
    forall p | 0 <= p < |desk.proposals| ::
      PartsSound(desk.thoughts, p, desk.proposals[p].parts) && Merged(desk.proposals[p].parts)
  }

  predicate DeskSound(desk: Desk) {
    && ProposalsSound(desk)
    && ThoughtsSound(desk)
    && desk.held == ShouldHold(desk.proposals)
    && ReplacedSound(desk.proposals)
  }

  // --- What never changes ------------------------------------------------------------

  predicate PartKept(before: Part, after: Part) {
    after == before || (before.thought.None? && after == before.(thought := after.thought))
  }

  /** A proposal keeps its text and place; a part's thought and the proposal that replaces it are set at most once. */
  predicate ProposalKept(before: Proposal, after: Proposal) {
    && after == before.(parts := after.parts, replacedBy := after.replacedBy)
    && (before.replacedBy.Some? ==> after.replacedBy == before.replacedBy)
    && |after.parts| == |before.parts|
    && forall i | 0 <= i < |before.parts| :: PartKept(before.parts[i], after.parts[i])
  }

  predicate DeskKept(before: Desk, after: Desk) {
    && |before.proposals| <= |after.proposals|
    && before.thoughts <= after.thoughts
    && forall p | 0 <= p < |before.proposals| :: ProposalKept(before.proposals[p], after.proposals[p])
  }

  lemma ProposalKeptJoins(a: Proposal, b: Proposal, c: Proposal)
    requires ProposalKept(a, b) && ProposalKept(b, c)
    ensures ProposalKept(a, c)
  {
    forall i | 0 <= i < |a.parts|
      ensures PartKept(a.parts[i], c.parts[i])
    {
      assert PartKept(a.parts[i], b.parts[i]) && PartKept(b.parts[i], c.parts[i]);
    }
  }

  lemma DeskKeptJoins(a: Desk, b: Desk, c: Desk)
    requires DeskKept(a, b) && DeskKept(b, c)
    ensures DeskKept(a, c)
  {
    forall p | 0 <= p < |a.proposals|
      ensures ProposalKept(a.proposals[p], c.proposals[p])
    {
      ProposalKeptJoins(a.proposals[p], b.proposals[p], c.proposals[p]);
    }
  }

  // --- Writing ------------------------------------------------------------------------

  /** Parts as a model proposes them: at least one, none saved. */
  predicate NewParts(parts: seq<Part>) {
    parts != [] && forall i | 0 <= i < |parts| :: parts[i].thought.None?
  }

  /** Only the proposal held with an unsaved part is replaced, and that one is the last before the new. */
  lemma ReplacesLast(desk: Desk)
    requires DeskSound(desk)
    ensures Replaces(desk) == desk.held == ShouldHold(desk.proposals)
    ensures Replaces(desk).Some? ==> desk.proposals[Replaces(desk).value].replacedBy.None?
  {
  }

  /** A proposal after the next is written. */
  function Passed(desk: Desk, p: nat): Proposal
    requires p < |desk.proposals|
  {
    if desk.held == Some(p) then desk.proposals[p].(replacedBy := Some(p + 1)) else desk.proposals[p]
  }

  lemma SupersededShape(desk: Desk)
    requires DeskSound(desk)
    ensures forall p | 0 <= p < |desk.proposals| :: Superseded(desk)[p] == Passed(desk, p)
  {
    ReplacesLast(desk);
  }

  lemma WrittenKept(desk: Desk, made: Proposal)
    requires DeskSound(desk)
    ensures DeskKept(desk, Written(desk, made))
  {
    ReplacesLast(desk);
    SupersededShape(desk);
    forall p | 0 <= p < |desk.proposals|
      ensures ProposalKept(desk.proposals[p], Written(desk, made).proposals[p])
    {
      assert Written(desk, made).proposals[p] == Passed(desk, p);
    }
  }

  lemma WrittenSound(desk: Desk, made: Proposal)
    requires DeskSound(desk) && NewParts(made.parts) && made.replacedBy.None?
    ensures DeskSound(Written(desk, made))
  {
    SupersededShape(desk);
    WrittenPartsSound(desk, made);
    WrittenReplacedSound(desk, made);
    NewPartsUnsaved(made.parts);
  }

  lemma NewPartsUnsaved(parts: seq<Part>)
    requires NewParts(parts)
    ensures HasUnsaved(parts)
  {
    assert parts[0].thought.None?;
  }

  lemma WrittenPartsSound(desk: Desk, made: Proposal)
    requires DeskSound(desk) && NewParts(made.parts)
    requires forall p | 0 <= p < |desk.proposals| :: Superseded(desk)[p] == Passed(desk, p)
    ensures ProposalsSound(Written(desk, made)) && ThoughtsSound(Written(desk, made))
  {
    var after := Written(desk, made);
    forall p | 0 <= p < |after.proposals|
      ensures PartsSound(after.thoughts, p, after.proposals[p].parts) && Merged(after.proposals[p].parts)
    {
      assert p < |desk.proposals| ==> after.proposals[p] == Passed(desk, p);
    }
    forall t | 0 <= t < |desk.thoughts|
      ensures after.thoughts[t] < |after.proposals| && Names(after.proposals[after.thoughts[t]].parts, t)
    {
      assert after.proposals[desk.thoughts[t]] == Passed(desk, desk.thoughts[t]);
    }
  }

  lemma WrittenReplacedSound(desk: Desk, made: Proposal)
    requires DeskSound(desk) && made.replacedBy.None?
    requires forall p | 0 <= p < |desk.proposals| :: Superseded(desk)[p] == Passed(desk, p)
    ensures ReplacedSound(Written(desk, made).proposals)
  {
    var after := Written(desk, made).proposals;
    forall p | 0 <= p < |after| && after[p].replacedBy.Some?
      ensures after[p].replacedBy == Some(p + 1) && p + 1 < |after|
    {
      assert p < |desk.proposals| ==> after[p] == Passed(desk, p);
    }
  }

  // --- Confirming ---------------------------------------------------------------------

  /** The parts a confirm that stores a thought leaves: those asked for are saved as the new
      thought, the others as they were. */
  lemma ConfirmedShape(desk: Desk, p: nat, asked: seq<int>)
    requires Stores(desk, p, asked, true)
    ensures var after, parts := Confirmed(desk, p, asked, true), desk.proposals[p].parts;
            && |after.proposals| == |desk.proposals| && after.thoughts == desk.thoughts + [p]
            && (forall q | 0 <= q < |desk.proposals| && q != p :: after.proposals[q] == desk.proposals[q])
            && after.proposals[p] == desk.proposals[p].(parts := after.proposals[p].parts)
            && |after.proposals[p].parts| == |parts|
            && forall i | 0 <= i < |parts| ::
                 after.proposals[p].parts[i] == if i in asked then parts[i].(thought := Some(|desk.thoughts|))
                   else parts[i]
  {
  }

  lemma ConfirmedKept(desk: Desk, p: nat, asked: seq<int>, accepted: bool)
    ensures DeskKept(desk, Confirmed(desk, p, asked, accepted))
  {
    if Stores(desk, p, asked, accepted) {
      ConfirmedShape(desk, p, asked);
      var before, after := desk.proposals[p].parts, Confirmed(desk, p, asked, true).proposals[p].parts;
      forall i | 0 <= i < |before|
        ensures PartKept(before[i], after[i])
      {
        if i in asked {
          var k :| 0 <= k < |asked| && asked[k] == i;
        }
      }
    }
  }

  lemma WithThoughtMerged(parts: seq<Part>, asked: seq<int>, thought: nat)
    requires Merged(parts) && Within(asked, |parts|) && OneOrAll(asked, |parts|)
    requires forall x | 0 <= x < |asked| :: parts[asked[x]].thought.None?
    requires forall i | 0 <= i < |parts| && parts[i].thought.Some? :: parts[i].thought.value < thought
    ensures Merged(WithThought(parts, asked, thought))
  {
    var after := WithThought(parts, asked, thought);
    forall i, j, k | 0 <= i < j < |after| && 0 <= k < |after| && after[i].thought.Some?
      && after[i].thought == after[j].thought
      ensures after[k].thought == after[i].thought
    {
      if i in asked && j in asked {
        var x :| 0 <= x < |asked| && asked[x] == i;
        var y :| 0 <= y < |asked| && asked[y] == j;
        assert k in asked;
      } else {
        NotAskedYet(parts, asked, thought, i, j, k);
      }
    }
  }

  lemma NotAskedYet(parts: seq<Part>, asked: seq<int>, thought: nat, i: nat, j: nat, k: nat)
    requires Merged(parts) && i < j < |parts| && k < |parts| && !(i in asked && j in asked)
    requires Within(asked, |parts|) && forall x | 0 <= x < |asked| :: parts[asked[x]].thought.None?
    requires forall i | 0 <= i < |parts| && parts[i].thought.Some? :: parts[i].thought.value < thought
    requires WithThought(parts, asked, thought)[i].thought.Some?
    requires WithThought(parts, asked, thought)[i].thought == WithThought(parts, asked, thought)[j].thought
    ensures WithThought(parts, asked, thought)[k].thought == WithThought(parts, asked, thought)[i].thought
  {
    assert i !in asked && j !in asked;
    assert parts[k].thought == parts[i].thought;
  }

  lemma WithThoughtSound(parts: seq<Part>, asked: seq<int>, thoughts: seq<nat>, p: nat)
    requires PartsSound(thoughts, p, parts)
    ensures PartsSound(thoughts + [p], p, WithThought(parts, asked, |thoughts|))
  {
  }

  lemma ConfirmedPartsSound(desk: Desk, p: nat, asked: seq<int>)
    requires DeskSound(desk) && Stores(desk, p, asked, true)
    ensures ProposalsSound(Confirmed(desk, p, asked, true))
  {
    var after, parts := Confirmed(desk, p, asked, true), desk.proposals[p].parts;
    forall q | 0 <= q < |after.proposals|
      ensures PartsSound(after.thoughts, q, after.proposals[q].parts) && Merged(after.proposals[q].parts)
    {
      assert PartsSound(desk.thoughts, q, desk.proposals[q].parts) && Merged(desk.proposals[q].parts);
      if q == p {
        WithThoughtMerged(parts, asked, |desk.thoughts|);
        WithThoughtSound(parts, asked, desk.thoughts, p);
      } else {
        assert after.proposals[q] == desk.proposals[q];
      }
    }
  }

  lemma NamesKept(parts: seq<Part>, asked: seq<int>, thought: nat, t: nat)
    requires Names(parts, t) && Within(asked, |parts|)
    requires forall x | 0 <= x < |asked| :: parts[asked[x]].thought.None?
    ensures Names(WithThought(parts, asked, thought), t)
  {
    var i :| 0 <= i < |parts| && parts[i].thought == Some(t);
    assert i !in asked;
    assert WithThought(parts, asked, thought)[i].thought == Some(t);
  }

  lemma ConfirmedThoughtsSound(desk: Desk, p: nat, asked: seq<int>)
    requires DeskSound(desk) && Stores(desk, p, asked, true)
    ensures ThoughtsSound(Confirmed(desk, p, asked, true))
  {
    var after, parts := Confirmed(desk, p, asked, true), desk.proposals[p].parts;
    var added := |desk.thoughts|;
    forall t | 0 <= t < |after.thoughts|
      ensures after.thoughts[t] < |after.proposals| && Names(after.proposals[after.thoughts[t]].parts, t)
    {
      if t == added {
        assert WithThought(parts, asked, added)[asked[0]].thought == Some(added);
      } else if desk.thoughts[t] == p {
        NamesKept(parts, asked, added, t);
      }
    }
  }

  lemma ConfirmedSound(desk: Desk, p: nat, asked: seq<int>, accepted: bool)
    requires DeskSound(desk)
    ensures DeskSound(Confirmed(desk, p, asked, accepted))
  {
    if Stores(desk, p, asked, accepted) {
      ConfirmedPartsSound(desk, p, asked);
      ConfirmedThoughtsSound(desk, p, asked);
      ConfirmedHeldSound(desk, p, asked);
    }
  }

  lemma ConfirmedHeldSound(desk: Desk, p: nat, asked: seq<int>)
    requires desk.held == ShouldHold(desk.proposals) && ReplacedSound(desk.proposals) && Stores(desk, p, asked, true)
    ensures Confirmed(desk, p, asked, true).held == ShouldHold(Confirmed(desk, p, asked, true).proposals)
    ensures ReplacedSound(Confirmed(desk, p, asked, true).proposals)
  {
    ConfirmedShape(desk, p, asked);
    assert desk.proposals[p].parts[asked[0]].thought.None?;
    assert HasUnsaved(desk.proposals[p].parts);
  }

  /** A confirm answers a new thought just when it stores one. */
  lemma AnsweredMeaning(desk: Desk, p: nat, asked: seq<int>, accepted: bool)
    requires DeskSound(desk)
    ensures Answered(desk, p, asked, accepted) == Saved(|desk.thoughts|) <==> Stores(desk, p, asked, accepted)
    ensures Confirmed(desk, p, asked, accepted) != desk <==> Stores(desk, p, asked, accepted)
  {
    if p < |desk.proposals| {
      assert PartsSound(desk.thoughts, p, desk.proposals[p].parts);
      if Stores(desk, p, asked, accepted) {
        assert desk.proposals[p].parts[asked[0]].thought.None?;
        assert |Confirmed(desk, p, asked, accepted).thoughts| == |desk.thoughts| + 1;
      }
    }
  }

  /** Once a confirm of some parts answered a thought, a confirm of the same parts answers that
      thought and stores nothing, in that state's every successor, whatever fields it sends. */
  lemma RepeatedConfirm(desk: Desk, p: nat, asked: seq<int>, accepted: bool, later: Desk, fields: bool)
    requires DeskSound(desk) && Answered(desk, p, asked, accepted).Saved?
    requires DeskKept(Confirmed(desk, p, asked, accepted), later)
    ensures Answered(later, p, asked, fields) == Answered(desk, p, asked, accepted)
    ensures Confirmed(later, p, asked, fields) == later
  {
    var thought := Answered(desk, p, asked, accepted).thought;
    AnsweredParts(desk, p, asked, accepted);
    var parts := Confirmed(desk, p, asked, accepted).proposals[p].parts;
    assert ProposalKept(Confirmed(desk, p, asked, accepted).proposals[p], later.proposals[p]);
    forall k | 0 <= k < |asked|
      ensures later.proposals[p].parts[asked[k]].thought == Some(thought)
    {
      assert PartKept(parts[asked[k]], later.proposals[p].parts[asked[k]]);
    }
    assert later.proposals[p].parts[asked[0]].thought == Some(thought);
  }

  /** The asked indexes are of parts there are, and name one part or every part. */
  predicate AsksOneOrAll(asked: seq<int>, count: nat) {
    && asked != []
    && (forall i | i in asked :: 0 <= i < count)
    && ((forall i, j | i in asked && j in asked :: i == j) || forall i | 0 <= i < count :: i in asked)
  }

  /** No asked part is saved. */
  predicate NoneSaved(parts: seq<Part>, asked: seq<int>)
    requires Within(asked, |parts|)
  {
    forall k | 0 <= k < |asked| :: parts[asked[k]].thought.None?
  }

  /** Every asked part is saved as this thought. */
  predicate SavedAs(parts: seq<Part>, asked: seq<int>, thought: nat)
    requires Within(asked, |parts|)
  {
    forall k | 0 <= k < |asked| :: parts[asked[k]].thought == Some(thought)
  }

  /** When each answer to a confirm is given. */
  lemma AnsweredExactly(desk: Desk, p: nat, asked: seq<int>, accepted: bool)
    ensures Answered(desk, p, asked, accepted) == NotFound <==> p >= |desk.proposals|
    ensures p < |desk.proposals| ==>
              var parts, answer := desk.proposals[p].parts, Answered(desk, p, asked, accepted);
              && (answer == Invalid <==> !AsksOneOrAll(asked, |parts|))
              && (AsksOneOrAll(asked, |parts|) ==>
                    && Within(asked, |parts|)
                    && (answer == PartSaved <==>
                          !NoneSaved(parts, asked) && !exists t: nat :: SavedAs(parts, asked, t))
                    && (answer == Refused <==> NoneSaved(parts, asked) && !accepted)
                    && (forall t: nat :: answer == Saved(t) <==>
                          SavedAs(parts, asked, t) || (NoneSaved(parts, asked) && accepted && t == |desk.thoughts|)))
  {
    if p < |desk.proposals| {
      var parts := desk.proposals[p].parts;
      ValidAsked(asked, |parts|);
      if AsksOneOrAll(asked, |parts|) && parts[asked[0]].thought.Some? {
        var first := parts[asked[0]].thought;
        assert SavedAs(parts, asked, first.value) <==> forall k | 0 <= k < |asked| :: parts[asked[k]].thought == first;
        assert forall t: nat :: SavedAs(parts, asked, t) ==> t == first.value;
      }
    }
  }

  lemma ValidAsked(asked: seq<int>, count: nat)
    ensures AsksOneOrAll(asked, count) <==> asked != [] && Within(asked, count) && OneOrAll(asked, count)
  {
    assert forall k | 0 <= k < |asked| :: asked[k] in asked;
  }

  lemma AnsweredParts(desk: Desk, p: nat, asked: seq<int>, accepted: bool)
    requires Answered(desk, p, asked, accepted).Saved?
    ensures p < |desk.proposals| && asked != []
    ensures var parts := Confirmed(desk, p, asked, accepted).proposals[p].parts;
            && |parts| == |desk.proposals[p].parts|
            && Within(asked, |parts|) && OneOrAll(asked, |parts|)
            && forall k | 0 <= k < |asked| ::
              parts[asked[k]].thought == Some(Answered(desk, p, asked, accepted).thought)
  {
    var parts := desk.proposals[p].parts;
    if parts[asked[0]].thought.Some? {
      assert !Stores(desk, p, asked, accepted);
    } else {
      assert Stores(desk, p, asked, accepted);
    }
  }

  /** The thoughts saved from a proposal are just the distinct ones its parts name. */
  lemma ThoughtsOfProposal(desk: Desk, p: nat)
    requires DeskSound(desk) && p < |desk.proposals|
    ensures (set t: nat | t < |desk.thoughts| && desk.thoughts[t] == p) ==
            (set i | 0 <= i < |desk.proposals[p].parts| && desk.proposals[p].parts[i].thought.Some? ::
               desk.proposals[p].parts[i].thought.value)
  {
    var parts := desk.proposals[p].parts;
    forall t: nat | t < |desk.thoughts| && desk.thoughts[t] == p
      ensures exists i :: 0 <= i < |parts| && parts[i].thought == Some(t)
    {
      assert Names(parts, t);
    }
    assert PartsSound(desk.thoughts, p, parts);
  }

  // --- Which proposal is held -----------------------------------------------------------

  /** The latest proposal with an unsaved part, which the column of the held one is said to name. */
  function LatestUnsaved(proposals: seq<Proposal>, n: nat): Option<nat>
    requires n <= |proposals|
  {
    if n == 0 then None
    else if HasUnsaved(proposals[n - 1].parts) then Some(n - 1)
    else LatestUnsaved(proposals, n - 1)
  }

  /** It is the held one just when the last proposal written has an unsaved part or none has any. */
  lemma HeldIsLatestUnsaved(desk: Desk)
    requires DeskSound(desk)
    ensures desk.held == LatestUnsaved(desk.proposals, |desk.proposals|) <==>
            || desk.proposals == []
            || HasUnsaved(desk.proposals[|desk.proposals| - 1].parts)
            || forall p | 0 <= p < |desk.proposals| :: !HasUnsaved(desk.proposals[p].parts)
  {
    LatestUnsavedMeaning(desk.proposals, |desk.proposals|);
  }

  lemma {:induction false} LatestUnsavedMeaning(proposals: seq<Proposal>, n: nat)
    requires n <= |proposals|
    ensures LatestUnsaved(proposals, n).None? <==> forall p | 0 <= p < n :: !HasUnsaved(proposals[p].parts)
    ensures n > 0 && HasUnsaved(proposals[n - 1].parts) ==> LatestUnsaved(proposals, n) == Some(n - 1)
  {
    if n > 0 {
      LatestUnsavedMeaning(proposals, n - 1);
    }
  }

  /** Two proposals of one part each, of which the second is saved: the first is not held again. */
  lemma SavedLastHidesEarlier(first: Proposal, second: Proposal, part: Part)
    requires first.parts == [part] && second.parts == [part] && part.thought.None?
    ensures var desk := Confirmed(Written(Written(Desk([], None, []), first), second), 1, [0], true);
            && desk.held == None
            && desk.proposals[0].parts == [part]
            && LatestUnsaved(desk.proposals, |desk.proposals|) == Some(0)
  {
    var desk := Written(Desk([], None, []), first);
    assert first.parts[0].thought.None?;
    assert HasUnsaved(desk.proposals[0].parts);
    var both := Written(desk, second);
    assert both.proposals[0].parts == [part] && both.proposals[1].parts == [part];
    assert 0 in [0];
    assert Stores(both, 1, [0], true);
    var saved := Confirmed(both, 1, [0], true);
    assert saved.proposals[1].parts == [part.(thought := Some(0))];
    assert saved.proposals[0].parts == [part] && saved.proposals[0].parts[0].thought.None?;
    assert !HasUnsaved(saved.proposals[1].parts);
    assert HasUnsaved(saved.proposals[0].parts);
  }
}
