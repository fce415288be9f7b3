/** Where proposals stand among the messages, and what a new one's discussion starts after. */
module Discussions {
  import opened Messages
  import opened RawText
  import opened Proposals
  import opened Lifecycle

  /** A proposal keeps user messages that were stored before it, the last of them among them; any
      user message since stands at its position or later. */
  predicate Placed(rows: seq<Message>, p: Proposal) {
    && p.from <= p.to && Says(rows, 0, p.from) && Says(rows, 0, p.to)
    && |p.rawText| <= MAX_RAW_TEXT
    && p.to <= p.position <= |rows|
    && (forall i: nat | Says(rows, 0, i) && p.to < i :: p.position <= i)
    && (p.position == |rows| ==> rows[|rows| - 1].role != User)
  }

  predicate AllPlaced(rows: seq<Message>, proposals: seq<Proposal>) {
    forall p | 0 <= p < |proposals| :: Placed(rows, proposals[p])
  }

  predicate NotAfter(p: Proposal, q: Proposal) {
    p.position <= q.position && p.to <= q.to
  }

  /** In the order they were written in, proposals stand later and end with later messages. */
  predicate InOrder(proposals: seq<Proposal>) {
    forall p, q | 0 <= p < q < |proposals| :: NotAfter(proposals[p], proposals[q])
  }

  function Range(n: nat): seq<nat> {
    seq(n, i requires 0 <= i => i)
  }

  /** Proposals in order are listed in the order they were written in. */
  lemma {:induction false} ListedInOrder(proposals: seq<Proposal>, n: nat)
    requires n <= |proposals| && InOrder(proposals)
    ensures Listed(proposals, n) == Range(n)
  {
    if n > 0 {
      ListedInOrder(proposals, n - 1);
      if n > 1 {
        assert NotAfter(proposals[n - 2], proposals[n - 1]);
      }
      assert Range(n) == Range(n - 1) + [n - 1];
    }
  }

  lemma {:induction false} StartAfterMeaning(proposals: seq<Proposal>, n: nat)
    requires n <= |proposals| && InOrder(proposals)
    ensures forall p | 0 <= p < n && HasSaved(proposals[p].parts) :: proposals[p].to < StartAfter(proposals, Range(n))
    ensures (exists p :: 0 <= p < n && HasSaved(proposals[p].parts)
               && StartAfter(proposals, Range(n)) == proposals[p].to + 1)
            || (StartAfter(proposals, Range(n)) == 0 && forall p | 0 <= p < n :: !HasSaved(proposals[p].parts))
    ensures n > 0 && HasSaved(proposals[n - 1].parts) ==> StartAfter(proposals, Range(n)) == proposals[n - 1].to + 1
  {
    if n > 0 {
      assert Range(n)[..n - 1] == Range(n - 1);
      if HasSaved(proposals[n - 1].parts) {
        forall p | 0 <= p < n
          ensures proposals[p].to <= proposals[n - 1].to
        {
          assert p < n - 1 ==> NotAfter(proposals[p], proposals[n - 1]);
        }
      } else {
        StartAfterMeaning(proposals, n - 1);
      }
    }
  }

  /** The discussion starts after every proposal with a saved part, right after the last of them. */
  lemma DiscussionStartMeaning(proposals: seq<Proposal>)
    requires InOrder(proposals)
    ensures forall p | 0 <= p < |proposals| && HasSaved(proposals[p].parts) ::
              proposals[p].to < DiscussionStart(proposals)
    ensures (exists p :: 0 <= p < |proposals| && HasSaved(proposals[p].parts)
               && DiscussionStart(proposals) == proposals[p].to + 1)
            || (DiscussionStart(proposals) == 0 && forall p | 0 <= p < |proposals| :: !HasSaved(proposals[p].parts))
    ensures proposals != [] && HasSaved(proposals[|proposals| - 1].parts) ==>
              DiscussionStart(proposals) == proposals[|proposals| - 1].to + 1
  {
    ListedInOrder(proposals, |proposals|);
    StartAfterMeaning(proposals, |proposals|);
  }

  /** If the user wrote anything since the last saved proposal, a new proposal's raw text starts
      after the last message of every proposal with a saved part; and it never exceeds the limit. */
  lemma RawTextAfterSaved(proposals: seq<Proposal>, rows: seq<Message>, parts: seq<Part>, position: nat, push: bool,
                          p: nat, i: nat)
    requires InOrder(proposals) && p < |proposals| && HasSaved(proposals[p].parts)
    requires HasUser(rows) && Says(rows, DiscussionStart(proposals), i)
    ensures proposals[p].to < Made(proposals, rows, parts, position, push).from
    ensures |Made(proposals, rows, parts, position, push).rawText| <= MAX_RAW_TEXT
  {
    DiscussionStartMeaning(proposals);
    RawTextPlaced(rows, DiscussionStart(proposals), push);
  }

  // --- Rows and proposals as they are added ---------------------------------------------

  /** A later row leaves proposals where they are; a proposal at the end stays so only by a row
      of the same position. */
  lemma PlacedWithRow(rows: seq<Message>, proposals: seq<Proposal>, row: Message)
    requires AllPlaced(rows, proposals)
    ensures AllPlaced(rows + [row], proposals)
  {
    forall p | 0 <= p < |proposals|
      ensures Placed(rows + [row], proposals[p])
    {
      assert Placed(rows, proposals[p]);
      forall i: nat | Says(rows + [row], 0, i) && proposals[p].to < i
        ensures proposals[p].position <= i
      {
        assert i < |rows| ==> Says(rows, 0, i);
      }
    }
  }

  lemma PlacedIfKept(rows: seq<Message>, before: Desk, after: Desk, p: nat)
    requires p < |before.proposals| && DeskKept(before, after) && Placed(rows, before.proposals[p])
    ensures Placed(rows, after.proposals[p])
  {
    assert ProposalKept(before.proposals[p], after.proposals[p]);
  }

  /** A proposal as it is made: not saved, not replaced, kept through the last user message. */
  predicate IsNew(rows: seq<Message>, made: Proposal) {
    && Placed(rows, made)
    && NewParts(made.parts) && made.replacedBy.None?
    && forall i: nat | i < |rows| && Says(rows, 0, i) :: i <= made.to
  }

  /** A proposal that a tool call makes stands where the call's result is stored next. */
  lemma ToolMade(proposals: seq<Proposal>, rows: seq<Message>, parts: seq<Part>, push: bool)
    requires HasUser(rows) && rows[|rows| - 1].role != User && NewParts(parts)
    ensures IsNew(rows, Made(proposals, rows, parts, |rows|, push))
    ensures Made(proposals, rows, parts, |rows|, push).position == |rows|
  {
    RawTextPlaced(rows, DiscussionStart(proposals), push);
  }

  /** One offered on request stands at the last message. */
  lemma OfferedMade(proposals: seq<Proposal>, rows: seq<Message>, parts: seq<Part>)
    requires HasUser(rows) && NewParts(parts)
    ensures IsNew(rows, Made(proposals, rows, parts, |rows| - 1, false))
    ensures Made(proposals, rows, parts, |rows| - 1, false).position == |rows| - 1
  {
    RawTextPlaced(rows, DiscussionStart(proposals), false);
  }

  lemma MadeAfterAll(proposals: seq<Proposal>, rows: seq<Message>, made: Proposal)
    requires AllPlaced(rows, proposals) && InOrder(proposals)
    requires forall i: nat | Says(rows, 0, i) :: i <= made.to
    requires forall p | 0 <= p < |proposals| :: proposals[p].position <= made.position
    ensures InOrder(proposals + [made])
  {
    var after := proposals + [made];
    forall p, q | 0 <= p < q < |after|
      ensures NotAfter(after[p], after[q])
    {
      if q < |proposals| {
        assert NotAfter(proposals[p], proposals[q]);
      } else {
        assert Placed(rows, proposals[p]);
      }
    }
  }

  lemma InOrderIfKept(before: Desk, after: Desk, n: nat)
    requires InOrder(before.proposals) && DeskKept(before, after) && n == |before.proposals|
    ensures InOrder(after.proposals[..n])
  {
    forall p, q | 0 <= p < q < n
      ensures NotAfter(after.proposals[p], after.proposals[q])
    {
      assert ProposalKept(before.proposals[p], after.proposals[p]);
      assert ProposalKept(before.proposals[q], after.proposals[q]);
      assert NotAfter(before.proposals[p], before.proposals[q]);
    }
  }

  /** A proposal is offered only when none is held and the user wrote something since the last one
      saved: then no proposal stands after the last message. */
  lemma OfferedAfterAll(desk: Desk, rows: seq<Message>, i: nat)
    requires DeskSound(desk) && AllPlaced(rows, desk.proposals) && InOrder(desk.proposals)
    requires HeldParts(desk) == [] && Says(rows, DiscussionStart(desk.proposals), i)
    ensures forall p | 0 <= p < |desk.proposals| :: desk.proposals[p].position <= |rows| - 1
  {
    var n := |desk.proposals|;
    if n > 0 {
      var last := desk.proposals[n - 1];
      ReplacesLast(desk);
      assert PartsSound(desk.thoughts, n - 1, last.parts);
      assert !HasUnsaved(last.parts);
      assert last.parts[0].thought.Some?;
      DiscussionStartMeaning(desk.proposals);
      assert Placed(rows, last) && Says(rows, 0, i);
      forall p | 0 <= p < n
        ensures desk.proposals[p].position <= |rows| - 1
      {
        assert p < n - 1 ==> NotAfter(desk.proposals[p], last);
      }
    }
  }

  lemma WrittenPlaced(desk: Desk, rows: seq<Message>, made: Proposal)
    requires DeskSound(desk) && AllPlaced(rows, desk.proposals) && InOrder(desk.proposals)
    requires IsNew(rows, made)
    requires forall p | 0 <= p < |desk.proposals| :: desk.proposals[p].position <= made.position
    ensures AllPlaced(rows, Written(desk, made).proposals) && InOrder(Written(desk, made).proposals)
  {
    var earlier := Superseded(desk);
    SupersededShape(desk);
    forall p | 0 <= p < |earlier|
      ensures Placed(rows, earlier[p]) && earlier[p].position <= made.position
    {
      assert Placed(rows, desk.proposals[p]) && earlier[p] == Passed(desk, p);
    }
    SupersededInOrder(desk);
    MadeAfterAll(earlier, rows, made);
  }

  lemma SupersededInOrder(desk: Desk)
    requires DeskSound(desk) && InOrder(desk.proposals)
    ensures InOrder(Superseded(desk))
  {
    var earlier := Superseded(desk);
    SupersededShape(desk);
    forall p, q | 0 <= p < q < |earlier|
      ensures NotAfter(earlier[p], earlier[q])
    {
      assert earlier[p] == Passed(desk, p) && earlier[q] == Passed(desk, q);
      assert NotAfter(desk.proposals[p], desk.proposals[q]);
    }
  }

  lemma ConfirmedPlaced(desk: Desk, rows: seq<Message>, p: nat, asked: seq<int>, accepted: bool)
    requires AllPlaced(rows, desk.proposals) && InOrder(desk.proposals)
    ensures var after := Confirmed(desk, p, asked, accepted);
            AllPlaced(rows, after.proposals) && InOrder(after.proposals)
  {
    var after := Confirmed(desk, p, asked, accepted);
    ConfirmedKept(desk, p, asked, accepted);
    forall q | 0 <= q < |after.proposals|
      ensures Placed(rows, after.proposals[q])
    {
      PlacedIfKept(rows, desk, after, q);
    }
    InOrderIfKept(desk, after, |after.proposals|);
    assert after.proposals[..|after.proposals|] == after.proposals;
  }
}
