/** What drafts and accepted summaries keep, however stale the draft that is accepted. */
module Compactions {
  import opened Wrappers
  import opened Messages
  import opened Transcript

  /** The compacted messages, summaries aside, are those before p. */
  predicate Compacts(rows: seq<Message>, compacted: set<nat>, p: nat) {
    && (forall i: nat | i in compacted :: i < |rows|)
    && (forall i: nat | i < |rows| && rows[i].role != Summary :: i in compacted <==> i < p)
  }

  predicate Covers(rows: seq<Message>, through: nat, covered: set<nat>) {
    forall i: nat | i <= through && i < |rows| && rows[i].role != Summary :: i in covered
  }

  /** A draft was written from every message through its position, and does not split a call from its results. */
  predicate DraftSound(rows: seq<Message>, draft: Draft) {
    && draft.through < |rows| && rows[draft.through].role != Summary
    && Covers(rows, draft.through, draft.covered)
    && (draft.through + 1 < |rows| ==> rows[draft.through + 1].role != Tool)
  }

  predicate DraftsSound(t: Transcript) {
    forall d | 0 <= d < |t.drafts| :: DraftSound(t.rows, t.drafts[d])
  }

  function Latest(t: Transcript): Option<nat> {
    LatestSummary(t.rows, t.compacted, |t.rows|)
  }

  /** The draft that the latest summary was accepted from is known. */
  predicate Traced(t: Transcript, s: nat) {
    s in t.origins && t.origins[s] < |t.drafts|
  }

  /** The first position that no summary replaces. */
  function FirstKept(t: Transcript): nat {
    match Latest(t)
    case None => 0
    case Some(s) => if Traced(t, s) then t.drafts[t.origins[s]].through + 1 else 0
  }

  /** Once anything is compacted there is one live summary; before that there is none. */
  predicate OneSummary(t: Transcript) {
    match Latest(t)
    case None => t.compacted == {} && forall i | 0 <= i < |t.rows| :: t.rows[i].role != Summary
    case Some(s) =>
      && Traced(t, s)
      && forall i: nat | i < |t.rows| && t.rows[i].role == Summary && i !in t.compacted :: i == s
  }

  predicate ErrorsSound(t: Transcript) {
    forall i: nat | i in t.errors :: i < |t.rows|
  }

  predicate Sound(t: Transcript) {
    && RowsGrouped(t.rows)
    && ErrorsSound(t)
    && DraftsSound(t)
    && OneSummary(t)
    && Compacts(t.rows, t.compacted, FirstKept(t))
  }

  lemma {:induction false} LatestSummaryFrame(rows: seq<Message>, row: Message, compacted: set<nat>, n: nat)
    requires n <= |rows|
    ensures LatestSummary(rows + [row], compacted, n) == LatestSummary(rows, compacted, n)
  {
    if n > 0 {
      LatestSummaryFrame(rows, row, compacted, n - 1);
    }
  }

  lemma FirstRowIsNoResult(rows: seq<Message>)
    requires RowsGrouped(rows) && rows != []
    ensures rows[0].role != Tool
  {
    assert RowAnswers(rows, 0);
  }

  lemma FirstKeptStartsGroup(t: Transcript)
    requires Sound(t) && FirstKept(t) < |t.rows|
    ensures t.rows[FirstKept(t)].role != Tool
  {
    FirstRowIsNoResult(t.rows);
  }

  /** A call and its results are compacted together. */
  lemma SoundKeepsGroups(t: Transcript)
    requires Sound(t)
    ensures KeepsGroups(t.rows, t.compacted)
  {
    forall i | 0 <= i < |t.rows|
      ensures KeepsGroupAt(t.rows, t.compacted, i)
    {
      if t.rows[i].role == Tool && i !in t.compacted {
        assert RowAnswers(t.rows, i);
        FirstKeptStartsGroup(t);
      }
    }
  }

  // --- Storing a row ----------------------------------------------------------------

  lemma StoredFrame(t: Transcript, row: Message)
    requires row.role != Summary
    ensures Latest(Stored(t, row)) == Latest(t) && FirstKept(Stored(t, row)) == FirstKept(t)
  {
    LatestSummaryFrame(t.rows, row, t.compacted, |t.rows|);
  }

  /** A row other than a summary may be stored at the end; a tool row only where its call is open and
      no draft ends just before it. */
  lemma StoredKeeps(t: Transcript, row: Message)
    requires Sound(t) && row.role != Summary
    requires row.role == Tool ==> HasCall(OpenRows(t.rows, |t.rows|), row.callId)
    requires row.role == Tool ==> forall d | 0 <= d < |t.drafts| :: t.drafts[d].through + 1 < |t.rows|
    requires FirstKept(t) <= |t.rows|
    ensures Sound(Stored(t, row))
  {
    StoredFrame(t, row);
    RowsGroupedAppend(t.rows, row);
    forall d | 0 <= d < |t.drafts|
      ensures DraftSound(t.rows + [row], t.drafts[d])
    {
      DraftFrame(t.rows, row, t.drafts[d]);
    }
    CompactsFrame(t.rows, row, t.compacted, FirstKept(t));
  }

  lemma DraftFrame(rows: seq<Message>, row: Message, draft: Draft)
    requires DraftSound(rows, draft)
    requires row.role == Tool ==> draft.through + 1 < |rows|
    ensures DraftSound(rows + [row], draft)
  {
  }

  lemma CompactsFrame(rows: seq<Message>, row: Message, compacted: set<nat>, p: nat)
    requires Compacts(rows, compacted, p) && p <= |rows|
    ensures Compacts(rows + [row], compacted, p)
  {
    assert |rows| !in compacted;
  }

  lemma ErrorKeeps(t: Transcript, i: nat, code: string)
    requires Sound(t) && i < |t.rows|
    ensures Sound(WithError(t, i, code))
  {
  }

  // --- Issuing a draft ------------------------------------------------------------

  lemma DraftNowSound(t: Transcript, keepRecent: nat)
    requires Sound(t) && DraftNow(t, keepRecent).Some?
    ensures DraftSound(t.rows, DraftNow(t, keepRecent).value)
    ensures FirstKept(t) <= DraftNow(t, keepRecent).value.through
  {
    var replaced, draft := Replaced(t.rows, t.compacted, keepRecent), DraftNow(t, keepRecent).value;
    var through := draft.through;
    ReplacedMeaning(t.rows, t.compacted, keepRecent);
    assert IsLive(t.rows, t.compacted, through) && FirstKept(t) <= through;
    forall i: nat | i <= through && i < |t.rows| && t.rows[i].role != Summary
      ensures i in draft.covered
    {
      if i in t.compacted {
        assert i < FirstKept(t);
        assert DraftSound(t.rows, t.drafts[t.origins[Latest(t).value]]);
      } else {
        assert IsLive(t.rows, t.compacted, i);
      }
    }
  }

  lemma IssuedKeeps(t: Transcript, keepRecent: nat)
    requires Sound(t) && DraftNow(t, keepRecent).Some?
    ensures Sound(Issued(t, DraftNow(t, keepRecent).value))
    ensures FirstKept(Issued(t, DraftNow(t, keepRecent).value)) == FirstKept(t)
  {
    DraftNowSound(t, keepRecent);
  }

  // --- Accepting one -----------------------------------------------------------------

  /** A draft, issued at any time before, is refused just when summaries accepted since replaced all it would. */
  lemma StaleIsRefused(t: Transcript, d: nat, text: string)
    requires Sound(t) && d < |t.drafts|
    ensures Accepted(t, d, text).Some? <==> FirstKept(t) <= t.drafts[d].through
  {
    var through := t.drafts[d].through;
    assert DraftSound(t.rows, t.drafts[d]);
    if FirstKept(t) <= through {
      assert through in ReplacedThrough(t.rows, t.compacted, through);
    }
    forall i: nat | i in ReplacedThrough(t.rows, t.compacted, through)
      ensures FirstKept(t) <= through
    {
    }
  }

  lemma AcceptedLatest(t: Transcript, d: nat, text: string)
    requires Sound(t) && d < |t.drafts| && Accepted(t, d, text).Some?
    ensures Latest(Accepted(t, d, text).value) == Some(|t.rows|)
    ensures FirstKept(Accepted(t, d, text).value) == t.drafts[d].through + 1
    ensures FirstKept(t) <= t.drafts[d].through
  {
    var through := t.drafts[d].through;
    var replaced := ReplacedThrough(t.rows, t.compacted, through);
    var i: nat :| i in replaced;
    assert FirstKept(t) <= i;
    assert |t.rows| !in t.compacted;
  }

  /** An accepted draft leaves one live summary, its own, and just the messages through its position compacted. */
  lemma AcceptedKeeps(t: Transcript, d: nat, text: string)
    requires Sound(t) && d < |t.drafts| && Accepted(t, d, text).Some?
    ensures Sound(Accepted(t, d, text).value)
  {
    var u := Accepted(t, d, text).value;
    AcceptedLatest(t, d, text);
    RowsGroupedAppend(t.rows, SummaryRow(text));
    AcceptedCompacts(t, d, text);
    forall e | 0 <= e < |t.drafts|
      ensures DraftSound(u.rows, t.drafts[e])
    {
      DraftFrame(t.rows, SummaryRow(text), t.drafts[e]);
    }
    assert OneSummary(u) by {
      forall i: nat | i < |u.rows| && u.rows[i].role == Summary && i !in u.compacted
        ensures i == |t.rows|
      {
        assert i < |t.rows| ==> i !in OpenSummaries(t.rows, t.compacted);
      }
    }
  }

  lemma AcceptedCompacts(t: Transcript, d: nat, text: string)
    requires Sound(t) && d < |t.drafts| && Accepted(t, d, text).Some?
    ensures Compacts(Accepted(t, d, text).value.rows, Accepted(t, d, text).value.compacted, t.drafts[d].through + 1)
  {
    var u, through := Accepted(t, d, text).value, t.drafts[d].through;
    AcceptedLatest(t, d, text);
    forall i: nat | i < |u.rows| && u.rows[i].role != Summary
      ensures i in u.compacted <==> i < through + 1
    {
      assert u.rows[i] == t.rows[i];
      assert i !in OpenSummaries(t.rows, t.compacted);
    }
  }

  /** Everything compacted is covered by the one live summary, directly or through an earlier one. */
  lemma SummaryCovers(t: Transcript, i: nat)
    requires Sound(t) && i in t.compacted && t.rows[i].role != Summary
    ensures Latest(t).Some? && Traced(t, Latest(t).value)
    ensures i in t.drafts[t.origins[Latest(t).value]].covered
    ensures forall j: nat | j <= i && t.rows[j].role != Summary :: j in t.compacted
    ensures forall s: nat | s < |t.rows| && t.rows[s].role == Summary && s !in t.compacted :: s == Latest(t).value
  {
    assert DraftSound(t.rows, t.drafts[t.origins[Latest(t).value]]);
  }
}
