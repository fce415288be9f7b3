/** A stored conversation, with what its requests do to it between turns. */
module Conversations {
  import opened Wrappers
  import Text
  import opened Messages
  import opened Transcript
  import opened Compactions
  import opened RawText
  import opened Proposals
  import opened Lifecycle
  import opened Chat

  class Conversation {
    /** The message rows and their position column. */
    var rows: seq<Message>
    var positions: seq<nat>
    var errors: map<nat, string>
    var compacted: set<nat>
    /** The drafts sent to the browser, and the one each summary row was accepted from. */
    var drafts: seq<Draft>
    var origins: map<nat, nat>
    var proposals: seq<Proposal>
    var held: Option<nat>
    var thoughts: seq<nat>
    /** Whether a turn is running. */
    var claimed: bool

    /** Positions are 0 to n-1 without gaps. */
    ghost predicate Valid()
      reads this
    {
      |positions| == |rows| && forall i | 0 <= i < |rows| :: positions[i] == i
    }

    ghost function Thread(): Transcript
      reads this
    {
      Transcript(rows, errors, compacted, drafts, origins)
    }

    ghost function Proposed(): Desk
      reads this
    {
      Desk(proposals, held, thoughts)
    }

    /** The conversation while no turn runs. */
    ghost function Idle(): State
      reads this
    {
      State(Thread(), Proposed(), None)
    }

    constructor ()
      ensures Valid() && !claimed && Idle() == START
    {
      rows, positions, errors, compacted := [], [], map[], {};
      drafts, origins := [], map[];
      proposals, held, thoughts := [], None, [];
      claimed := false;
    }

    // --- Rows and the claim --------------------------------------------------------------------

    /** The position after the highest one stored. */
    method NextPosition() returns (position: nat)
      requires Valid()
      ensures position == |rows|
    {
      position := 0;
      for i := 0 to |positions|
        invariant position == i
      {
        if positions[i] + 1 > position {
          position := positions[i] + 1;
        }
      }
    }

    method Store(row: Message)
      requires Valid()
      modifies this`rows, this`positions
      ensures Valid() && rows == old(rows) + [row]
    {
      var position := NextPosition();
      rows, positions := rows + [row], positions + [position];
    }

    /** One turn at a time: the claim is won only when no turn runs. */
    method Claim() returns (won: bool)
      modifies this`claimed
      ensures won == !old(claimed) && claimed
    {
      won := !claimed;
      claimed := true;
    }

    method Release()
      modifies this`claimed
      ensures !claimed
    {
      claimed := false;
    }

    method StoreUserMessage(text: string)
      requires Valid()
      modifies this`rows, this`positions
      ensures Valid() && Thread() == Sent(old(Thread()), text)
      ensures var repeats := old(rows) != [] && old(rows[|rows| - 1].role) == User
                && old(rows[|rows| - 1].content) == Some(text);
              rows == old(rows) + if repeats then [] else [Message(User, Some(text), [], "", Complete, NoDetails)]
    {
      if rows != [] {
        var last := rows[|rows| - 1];
        if last.role == User && last.content == Some(text) {
          return;
        }
      }
      Store(UserRow(text));
    }

    // --- The context of a turn -----------------------------------------------------------------------

    /** The held proposal's parts, if one with an unsaved part is held. */
    method FindHeldParts() returns (parts: seq<Part>)
      ensures parts == HeldParts(Proposed())
    {
      parts := [];
      if held.Some? && held.value < |proposals| {
        UnsavedMeaning(proposals[held.value].parts);
        if Unsaved(proposals[held.value].parts) != [] {
          parts := proposals[held.value].parts;
        }
      }
    }

    /** The instructions, the latest summary, the messages not compacted, and the note on the held parts. */
    method BuildModelContext(parts: seq<Part>) returns (context: seq<ModelMessage>)
      ensures context == BuildContext(rows, compacted, parts)
    {
      var live, summary := Gather(rows, compacted);
      context := [Instructions];
      if summary.Some? {
        LatestSummaryMeaning(rows, compacted, |rows|);
        context := context + [Recap(OrEmpty(rows[summary.value].content))];
      }
      assert context == [Instructions] + Recapped(rows, compacted);
      ghost var head := context;
      for n := 0 to |rows|
        invariant context == head + Converted(rows, compacted, n)
      {
        if n !in compacted && rows[n].role != Summary {
          var converted := AsModelMessage(rows[n]);
          if converted.Some? {
            context := context + [converted.value];
          }
        }
        Assoc(head, Converted(rows, compacted, n), Contribution(rows, compacted, n));
      }
      if Unsaved(parts) != [] {
        context := context + [HeldNote(Unsaved(parts))];
      }
    }

    // --- Summaries ---------------------------------------------------------------------------------

    /** /compact: a draft of what the plan replaces. It changes nothing but the drafts issued. */
    method DraftSummary(keepRecent: nat) returns (draft: Option<Draft>)
      requires Valid()
      modifies this`drafts, this`claimed
      ensures Valid() && claimed == old(claimed)
      ensures old(claimed) ==> draft == None && Idle() == old(Idle())
      ensures !old(claimed) ==>
                draft == DraftNow(old(Thread()), keepRecent)
                  && Idle() == Apply(old(Idle()), Step.DraftSummary(keepRecent))
    {
      draft := None;
      if claimed {
        return;
      }
      var won := Claim();
      var summary, replaced := PlanCompaction(rows, compacted, keepRecent);
      if replaced != [] {
        var covered := Covered(summary, replaced);
        draft := Some(Draft(replaced[|replaced| - 1], covered));
        drafts := drafts + [draft.value];
      }
      DraftIs(old(Idle()), keepRecent, draft);
      Release();
    }

    /** The messages that a draft of these is written from, directly or through the latest summary. */
    method Covered(summary: Option<nat>, replaced: seq<nat>) returns (covered: set<nat>)
      requires summary == Latest(Thread())
      ensures covered == (set i | i in replaced) + Inherited(Thread())
    {
      covered := set i | i in replaced;
      if summary.Some? && summary.value in origins && origins[summary.value] < |drafts| {
        covered := covered + drafts[origins[summary.value]].covered;
      } else {
        assert covered + {} == covered;
      }
    }

    /** Marks what an accepted summary replaces. */
    method MarkReplaced(through: nat) returns (marked: set<nat>)
      requires Valid()
      modifies this`compacted
      ensures marked == ReplacedThrough(rows, old(compacted), through)
      ensures compacted ==
              if marked == {} then old(compacted) else old(compacted) + marked + OpenSummaries(rows, old(compacted))
    {
      marked := {};
      var summaries := {};
      for i := 0 to |rows|
        invariant compacted == old(compacted)
        invariant marked == set j: nat | j < i && IsLive(rows, compacted, j) && j <= through
        invariant summaries == set j: nat | j < i && rows[j].role == Summary && j !in compacted
      {
        if i !in compacted {
          if rows[i].role == Summary {
            summaries := summaries + {i};
          } else if positions[i] <= through {
            marked := marked + {i};
          }
        }
      }
      if marked != {} {
        compacted := compacted + marked + summaries;
      }
    }

    /** Accepting a draft, as the user edited it. Answers whether the summary was stored. */
    method AcceptSummary(d: nat, summary: string) returns (stored: bool)
      requires Valid() && d < |drafts|
      modifies this
      ensures Valid() && claimed == old(claimed)
      ensures old(claimed) || Text.IsBlank(summary) ==> !stored && Idle() == old(Idle())
      ensures !old(claimed) ==> Idle() == Apply(old(Idle()), Accept(d, summary)) && (stored <==> Idle() != old(Idle()))
    {
      stored := false;
      if Text.IsBlank(summary) || claimed {
        return;
      }
      var won := Claim();
      stored := StoreAccepted(d, Text.Strip(summary));
      AcceptIs(old(Idle()), d, summary, Thread());
      Release();
    }

    /** Stores the summary in place of what its draft replaces, if that is anything still. */
    method StoreAccepted(d: nat, text: string) returns (stored: bool)
      requires Valid() && d < |drafts|
      modifies this`compacted, this`origins, this`rows, this`positions
      ensures Valid()
      ensures stored <==> Accepted(old(Thread()), d, text).Some?
      ensures Thread() == if stored then Accepted(old(Thread()), d, text).value else old(Thread())
      ensures stored ==> |rows| == old(|rows|) + 1
    {
      stored := false;
      var marked := MarkReplaced(drafts[d].through);
      if marked != {} {
        origins := origins[|rows| := d];
        Store(SummaryRow(text));
        stored := true;
      }
    }

    // --- Proposals ------------------------------------------------------------------------------------

    /** The position after the latest saved proposal, by the list's order. */
    method FindDiscussionStart() returns (start: nat)
      ensures start == DiscussionStart(proposals)
    {
      var order := [];
      for n := 0 to |proposals|
        invariant order == Listed(proposals, n)
      {
        order := Proposals.Inserted(proposals, order, n);
      }
      var k := |order|;
      assert order[..k] == order;
      while k > 0
        invariant 0 <= k <= |order|
        invariant StartAfter(proposals, order[..k]) == DiscussionStart(proposals)
      {
        k := k - 1;
        assert order[..k + 1][..k] == order[..k];
        if HasSaved(proposals[order[k]].parts) {
          return proposals[order[k]].to + 1;
        }
      }
      start := 0;
    }

    method ListUserMessages(start: nat) returns (said: seq<Said>)
      ensures said == Discussion(rows, start, |rows|)
    {
      said := [];
      for n := 0 to |rows|
        invariant said == Discussion(rows, start, n)
      {
        if rows[n].role == User && n >= start {
          said := said + [SaidAt(rows, n)];
        }
      }
    }

    /** What a proposal written at this moment keeps of the user's messages. */
    method RawTextNow(push: bool) returns (raw: RawText)
      requires HasUser(rows)
      ensures raw == RawTextFor(rows, DiscussionStart(proposals), push)
    {
      UserFound(rows);
      var users := ListUserMessages(0);
      var start := FindDiscussionStart();
      var discussion := ListUserMessages(start);
      if push || discussion == [] {
        discussion := [users[|users| - 1]];
      }
      raw := FitMessages(discussion);
    }

    method MakeProposal(parts: seq<Part>, position: nat, push: bool) returns (made: Proposal)
      requires HasUser(rows)
      ensures made == Made(proposals, rows, parts, position, push)
    {
      var raw := RawTextNow(push);
      made := Proposal(position, raw.from, raw.to, raw.text, parts, None);
    }

    /** Holds a new proposal. Answers the one that it replaces. */
    method HoldProposal(made: Proposal) returns (replaced: Option<nat>)
      modifies this`proposals, this`held
      ensures replaced == Replaces(old(Proposed()))
      ensures Proposed() == Written(old(Proposed()), made)
      ensures |proposals| == old(|proposals|) + 1 && proposals[old(|proposals|)] == made
      ensures held == Some(old(|proposals|))
    {
      replaced := None;
      var p := |proposals|;
      if held.Some? && held.value < |proposals| {
        UnsavedMeaning(proposals[held.value].parts);
        if Unsaved(proposals[held.value].parts) != [] {
          replaced := held;
          proposals := proposals[held.value := proposals[held.value].(replacedBy := Some(p))];
        }
      }
      proposals, held := proposals + [made], Some(p);
    }

    /** Writes a proposal and holds it. Answers it and the one that it replaces. */
    method WriteProposal(parts: seq<Part>, position: nat, push: bool) returns (made: Proposal, replaced: Option<nat>)
      requires HasUser(rows)
      modifies this`proposals, this`held
      ensures made == Made(old(proposals), rows, parts, position, push)
      ensures replaced == Replaces(old(Proposed()))
      ensures Proposed() == Written(old(Proposed()), made)
      ensures made.parts == parts && made.position == position
      ensures |proposals| == old(|proposals|) + 1 && proposals[old(|proposals|)] == made
      ensures held == Some(old(|proposals|))
    {
      made := MakeProposal(parts, position, push);
      replaced := HoldProposal(made);
    }

    /** Saves one part, or all parts as one thought, unless that was done before. A turn may be running. */
    method Confirm(p: nat, asked: seq<int>, accepted: bool) returns (answer: Answer)
      modifies this`proposals, this`held, this`thoughts
      ensures answer == Answered(old(Proposed()), p, asked, accepted)
      ensures Proposed() == Confirmed(old(Proposed()), p, asked, accepted)
    {
      if p >= |proposals| {
        return NotFound;
      }
      var parts := proposals[p].parts;
      var indexes := set i | i in asked;
      if asked == [] || exists i | i in asked :: !(0 <= i < |parts|) {
        assert asked == [] || !Within(asked, |parts|) by {
          if i :| i in asked && !(0 <= i < |parts|) {
            assert exists k :: 0 <= k < |asked| && asked[k] == i;
          }
        }
        return Invalid;
      }
      assert Within(asked, |parts|) by {
        assert forall k | 0 <= k < |asked| :: asked[k] in asked;
      }
      OneOrAllCount(asked, |parts|);
      if |indexes| > 1 && |indexes| != |parts| {
        return Invalid;
      }
      var first := parts[asked[0]].thought;
      if first.Some? && forall k | 0 <= k < |asked| :: parts[asked[k]].thought == first {
        return Saved(first.value);
      }
      if exists k | 0 <= k < |asked| :: parts[asked[k]].thought.Some? {
        return PartSaved;
      }
      if !accepted {
        return Refused;
      }
      var thought := |thoughts|;
      thoughts := thoughts + [p];
      var saved := WithThought(parts, asked, thought);
      proposals := proposals[p := proposals[p].(parts := saved)];
      if held == Some(p) && forall i | 0 <= i < |saved| :: saved[i].thought.Some? {
        held := None;
      }
      answer := Saved(thought);
    }

    /** The proposal to show before the conversation is archived or compacted: the one held, or one
        the model makes of what was said after the last saved one, if anything was; it may decline. */
    method OfferProposal(answer: seq<Part>) returns (p: Option<nat>)
      requires Valid()
      modifies this
      ensures Valid() && claimed == old(claimed)
      ensures HeldParts(old(Proposed())) != [] ==> p == old(held) && Idle() == old(Idle())
      ensures HeldParts(old(Proposed())) == [] ==>
                if !old(claimed) && old(SaidSinceSaved(Idle())) && NewParts(answer) then
                  Enabled(old(Idle()), Offer(answer)) && Idle() == Apply(old(Idle()), Offer(answer))
                    && p == Some(old(|proposals|))
                else p == None && Idle() == old(Idle())
    {
      p := None;
      var parts := FindHeldParts();
      if parts != [] {
        return held;
      }
      if claimed {
        return;
      }
      p := OfferClaimed(answer);
      if p.Some? {
        OfferedIs(old(Idle()), answer, Proposed());
      }
    }

    /** With the claim, asks the model. */
    method OfferClaimed(answer: seq<Part>) returns (p: Option<nat>)
      requires Valid() && !claimed
      modifies this`claimed, this`proposals, this`held
      ensures Valid() && !claimed && Idle() == old(Idle()).(desk := Proposed())
      ensures p.Some? <==> SaidSinceSaved(old(Idle())) && NewParts(answer)
      ensures p.Some? ==>
                HasUser(rows) && p == Some(old(|proposals|)) &&
                Proposed() == Written(old(Proposed()), Made(old(proposals), rows, answer, |rows| - 1, false))
      ensures p.None? ==> Proposed() == old(Proposed())
    {
      ghost var s := Idle();
      var won := Claim();
      assert Idle() == s;
      p := OfferNew(answer);
      ghost var desk := Proposed();
      Release();
      assert Proposed() == desk;
    }

    /** Writes and holds the offered proposal, if there is a discussion to propose and the model proposed. */
    method OfferNew(answer: seq<Part>) returns (p: Option<nat>)
      modifies this`proposals, this`held
      ensures if SaidSinceSaved(old(Idle())) && NewParts(answer) then
                HasUser(rows) && p == Some(old(|proposals|)) &&
                Proposed() == Written(old(Proposed()), Made(old(proposals), rows, answer, |rows| - 1, false))
              else p == None && Proposed() == old(Proposed())
    {
      p := None;
      var said := SaidSince();
      if said && NewParts(answer) {
        SaidByUser(Idle());
        p := Some(|proposals|);
        var made, replaced := WriteProposal(answer, |rows| - 1, false);
      }
    }

    /** Whether the user said something, not compacted, since the last saved proposal. */
    method SaidSince() returns (said: bool)
      ensures said == SaidSinceSaved(Idle())
    {
      var start := FindDiscussionStart();
      said := false;
      for i := 0 to |rows|
        invariant said <==> exists j: nat | j < i :: j !in compacted && Says(rows, start, j)
      {
        if rows[i].role == User && i !in compacted && i >= start {
          assert Says(rows, start, i);
          said := true;
        }
      }
    }
  }

  lemma DraftIs(s: State, keepRecent: nat, draft: Option<Draft>)
    requires s.turn.None? && draft == DraftNow(s.thread, keepRecent)
    ensures Apply(s, Step.DraftSummary(keepRecent)) ==
            if draft.Some? then s.(thread := s.thread.(drafts := s.thread.drafts + [draft.value])) else s
  {
  }

  lemma AcceptIs(s: State, d: nat, summary: string, thread: Transcript)
    requires s.turn.None? && d < |s.thread.drafts| && !Text.IsBlank(summary)
    requires thread == Accepted(s.thread, d, Text.Strip(summary)).GetOr(s.thread)
    ensures Enabled(s, Accept(d, summary)) && Apply(s, Accept(d, summary)) == s.(thread := thread)
  {
  }

  lemma SaidByUser(s: State)
    requires SaidSinceSaved(s)
    ensures HasUser(s.thread.rows)
  {
    var i: nat :| i < |s.thread.rows| && i !in s.thread.compacted
      && Says(s.thread.rows, DiscussionStart(s.desk.proposals), i);
    assert s.thread.rows[i].role == User;
  }

  lemma OfferedIs(s: State, parts: seq<Part>, desk: Desk)
    requires s.turn.None? && HasUser(s.thread.rows) && HeldParts(s.desk) == [] && SaidSinceSaved(s) && NewParts(parts)
    requires desk == Written(s.desk, Made(s.desk.proposals, s.thread.rows, parts, |s.thread.rows| - 1, false))
    ensures Enabled(s, Offer(parts)) && Apply(s, Offer(parts)) == s.(desk := desk)
  {
  }

  // --- One part or all -----------------------------------------------------------------------------

  function Below(count: nat): set<int> {
    if count == 0 then {} else Below(count - 1) + {count - 1}
  }

  lemma {:induction false} BelowMeaning(count: nat)
    ensures |Below(count)| == count && forall i :: i in Below(count) <==> 0 <= i < count
  {
    if count > 0 {
      BelowMeaning(count - 1);
    }
  }

  lemma SameSize(a: set<int>, b: set<int>)
    requires a <= b && |a| == |b|
    ensures a == b
  {
    assert b == a + (b - a);
    assert |b| == |a| + |b - a|;
  }

  /** The parts asked for are one or all of them just when their number, each counted once, says so. */
  lemma OneOrAllCount(asked: seq<int>, count: nat)
    requires asked != [] && Within(asked, count)
    ensures OneOrAll(asked, count) <==> |set i | i in asked| <= 1 || |set i | i in asked| == count
  {
    if OneOrAll(asked, count) {
      AllAsked(asked, count);
    }
    if |set i | i in asked| == count {
      CountAsked(asked, count);
    }
    if |set i | i in asked| <= 1 {
      OneAsked(asked);
    }
  }

  lemma OneAsked(asked: seq<int>)
    requires asked != [] && |set i | i in asked| <= 1
    ensures forall k | 0 <= k < |asked| :: asked[k] == asked[0]
  {
    var indexes := set i | i in asked;
    assert asked[0] in indexes;
    SameSize({asked[0]}, indexes);
    forall k | 0 <= k < |asked|
      ensures asked[k] == asked[0]
    {
      assert asked[k] in indexes;
    }
  }

  lemma CountAsked(asked: seq<int>, count: nat)
    requires Within(asked, count) && |set i | i in asked| == count
    ensures forall i | 0 <= i < count :: i in asked
  {
    var indexes := set i | i in asked;
    InRange(asked, count);
    BelowMeaning(count);
    SameSize(indexes, Below(count));
    forall i | 0 <= i < count
      ensures i in asked
    {
      assert i in indexes;
    }
  }

  lemma InRange(asked: seq<int>, count: nat)
    requires Within(asked, count)
    ensures forall i | i in asked :: 0 <= i < count
  {
  }

  lemma AllAsked(asked: seq<int>, count: nat)
    requires asked != [] && Within(asked, count) && OneOrAll(asked, count)
    ensures |set i | i in asked| <= 1 || |set i | i in asked| == count
  {
    var indexes := set i | i in asked;
    if forall k | 0 <= k < |asked| :: asked[k] == asked[0] {
      assert indexes == {asked[0]};
    } else {
      BelowMeaning(count);
      assert forall i | 0 <= i < count :: i in asked;
      forall i | i in asked
        ensures 0 <= i < count
      {
        var k :| 0 <= k < |asked| && asked[k] == i;
      }
      assert indexes == Below(count);
    }
  }
}
