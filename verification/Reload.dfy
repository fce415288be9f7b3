/** Reopening a conversation shows the answer that its events showed. */
module Reload {
  import opened Wrappers
  import opened Messages
  import opened Transcript
  import opened Proposals
  import opened Discussions
  import opened Chat
  import opened ChatInvariants
  import opened Screen
  import opened LiveAnswers

  // --- The page of a turn's rows -------------------------------------------------------------

  predicate PageSound(page: Page, n: nat) {
    && (page.open ==> IsOpen(page))
    && forall k | 0 <= k < |page.places| :: page.places[k].position < n && page.places[k].item < |page.items|
  }

  lemma {:induction false} PageIsSound(t: Transcript, count: nat, n: nat)
    requires n <= |t.rows|
    ensures PageSound(PageOf(t, count, n), n)
  {
    if n > 0 {
      PageIsSound(t, count, n - 1);
    }
  }

  lemma NamedByRow(page: Page, row: Message, error: Option<string>, compacted: bool, count: nat, i: nat)
    ensures forall p | p in WithMessage(page, row, error, compacted, count, i).named ::
              p in page.named || (row.details == ProposalShown(p) && p < count)
  {
  }

  lemma {:induction false} NamedOnPage(t: Transcript, proposals: seq<Proposal>, n: nat)
    requires n <= |t.rows| && NamedSound(t.rows, proposals)
    ensures forall p | p in PageOf(t, |proposals|, n).named ::
              IsNamed(t.rows, proposals, p) && proposals[p].position < n
  {
    if n > 0 {
      NamedOnPage(t, proposals, n - 1);
      assert ShowsOwn(t.rows[n - 1], n - 1, proposals);
      NamedByRow(PageOf(t, |proposals|, n - 1), t.rows[n - 1], ErrorAt(t.errors, n - 1), n - 1 in t.compacted,
                 |proposals|, n - 1);
    }
  }

  /** The rows of one answer: those after a user's message, with no other since. */
  predicate IsAnswer(rows: seq<Message>, from: nat) {
    && from < |rows| && rows[from].role == User
    && forall i | from < i < |rows| :: FromAnswer(rows[i])
  }

  lemma FirstRowOfAnswer(rows: seq<Message>, from: nat)
    requires RowsGrouped(rows) && IsAnswer(rows, from) && from + 1 < |rows|
    ensures rows[from + 1].role == Assistant
  {
    assert RowAnswers(rows, from + 1);
    assert FromAnswer(rows[from + 1]);
  }

  /** A tool row of the answer adds to the page just what it adds to the answer. */
  lemma ResultIsOwn(t: Transcript, proposals: seq<Proposal>, n: nat, view: View)
    requires n < |t.rows| && NamedSound(t.rows, proposals)
    ensures WithResult(view, t.rows[n], |proposals|, PageOf(t, |proposals|, n).named) == WithOwnResult(view, t.rows[n])
    ensures NewlyNamed(t.rows[n], |proposals|, PageOf(t, |proposals|, n).named) <==> t.rows[n].details.ProposalShown?
  {
    NamedOnPage(t, proposals, n);
    assert ShowsOwn(t.rows[n], n, proposals);
  }

  /** The page ends with an answer, after `before` other items. */
  predicate EndsWithAnswer(page: Page, prompt: string, view: View, before: nat) {
    IsOpen(page) && |page.items| == before + 1 && page.items[before].prompt == prompt && page.items[before].view == view
  }

  lemma RowAdds(page: Page, prompt: string, view: View, before: nat, row: Message, error: Option<string>,
                compacted: bool, count: nat, i: nat)
    requires EndsWithAnswer(page, prompt, view, before) && FromAnswer(row)
    ensures EndsWithAnswer(WithMessage(page, row, error, compacted, count, i), prompt,
              if row.role == Assistant then WithRow(view, row, error)
                else WithResult(view, row, count, page.named), before)
  {
  }

  /** A row of the answer adds to the page what it adds to the answer. */
  lemma RowAddsOwn(page: Page, prompt: string, view: View, before: nat, row: Message, error: Option<string>,
                   compacted: bool, count: nat, i: nat)
    requires EndsWithAnswer(page, prompt, view, before) && FromAnswer(row)
    requires WithResult(view, row, count, page.named) == WithOwnResult(view, row)
    ensures EndsWithAnswer(WithMessage(page, row, error, compacted, count, i), prompt,
                           if row.role == Assistant then WithRow(view, row, error)
                             else WithOwnResult(view, row), before)
  {
    RowAdds(page, prompt, view, before, row, error, compacted, count, i);
  }

  /** Once an answer has a row, the page ends with it: its prompt, and what its rows give. */
  lemma {:induction false} PageOfAnswer(t: Transcript, proposals: seq<Proposal>, from: nat, n: nat)
    requires RowsGrouped(t.rows) && NamedSound(t.rows, proposals) && IsAnswer(t.rows, from)
    requires from + 1 < n <= |t.rows|
    ensures EndsWithAnswer(PageOf(t, |proposals|, n), OrEmpty(t.rows[from].content), AnswerView(t, from, n),
                           |PageOf(t, |proposals|, from + 1).items|)
  {
    assert FromAnswer(t.rows[n - 1]);
    if n == from + 2 {
      FirstRowOfAnswer(t.rows, from);
    } else {
      PageOfAnswer(t, proposals, from, n - 1);
      var view, row := AnswerView(t, from, n - 1), t.rows[n - 1];
      ResultIsOwn(t, proposals, n - 1, view);
      RowAddsOwn(PageOf(t, |proposals|, n - 1), OrEmpty(t.rows[from].content), view,
                 |PageOf(t, |proposals|, from + 1).items|, row, ErrorAt(t.errors, n - 1), n - 1 in t.compacted,
                 |proposals|, n - 1);
    }
  }

  lemma RowPlaced(page: Page, row: Message, error: Option<string>, compacted: bool, count: nat, i: nat)
    requires IsOpen(page) && FromAnswer(row)
    ensures WithMessage(page, row, error, compacted, count, i).places == page.places + [Place(i, |page.items| - 1)]
  {
  }

  lemma PlaceOfRow(t: Transcript, proposals: seq<Proposal>, from: nat, n: nat)
    requires RowsGrouped(t.rows) && NamedSound(t.rows, proposals) && IsAnswer(t.rows, from)
    requires from + 1 < n <= |t.rows|
    ensures PageOf(t, |proposals|, n).places ==
            PageOf(t, |proposals|, n - 1).places + [Place(n - 1, |PageOf(t, |proposals|, from + 1).items|)]
  {
    assert FromAnswer(t.rows[n - 1]);
    if n == from + 2 {
      FirstRowOfAnswer(t.rows, from);
    } else {
      PageOfAnswer(t, proposals, from, n - 1);
      RowPlaced(PageOf(t, |proposals|, n - 1), t.rows[n - 1], ErrorAt(t.errors, n - 1), n - 1 in t.compacted,
                |proposals|, n - 1);
    }
  }

  /** Places of the answer's rows, of the first n. */
  function AnswerPlaces(item: nat, from: nat, n: nat): seq<Place> {
    if n <= from + 1 then [] else AnswerPlaces(item, from, n - 1) + [Place(n - 1, item)]
  }

  lemma {:induction false} PlacesOfAnswer(t: Transcript, proposals: seq<Proposal>, from: nat, n: nat)
    requires RowsGrouped(t.rows) && NamedSound(t.rows, proposals) && IsAnswer(t.rows, from)
    requires from < n <= |t.rows|
    ensures PageOf(t, |proposals|, n).places ==
            PageOf(t, |proposals|, from + 1).places + AnswerPlaces(|PageOf(t, |proposals|, from + 1).items|, from, n)
  {
    if n > from + 1 {
      var item := |PageOf(t, |proposals|, from + 1).items|;
      PlaceOfRow(t, proposals, from, n);
      PlacesOfAnswer(t, proposals, from, n - 1);
      Assoc(PageOf(t, |proposals|, from + 1).places, AnswerPlaces(item, from, n - 1), [Place(n - 1, item)]);
    }
  }

  lemma OwnerSnoc(places: seq<Place>, place: Place, x: nat)
    ensures Owner(places + [place], x) == if place.position <= x then Some(place.item) else Owner(places, x)
  {
    assert (places + [place])[..|places|] == places;
  }

  lemma {:induction false} OwnerWithin(places: seq<Place>, x: nat, count: nat)
    requires forall k | 0 <= k < |places| :: places[k].item < count
    ensures Owner(places, x).Some? ==> Owner(places, x).value < count
  {
    if places != [] && places[|places| - 1].position > x {
      OwnerWithin(places[..|places| - 1], x, count);
    }
  }

  lemma {:induction false} OwnerOfPlaces(places: seq<Place>, item: nat, from: nat, n: nat, x: nat)
    requires forall k | 0 <= k < |places| :: places[k].item < item
    ensures Owner(places + AnswerPlaces(item, from, n), x) == Some(item) <==> from < x && from + 1 < n
    decreases n
  {
    if n <= from + 1 {
      Assoc(places, [], []);
      OwnerWithin(places, x, item);
    } else {
      Assoc(places, AnswerPlaces(item, from, n - 1), [Place(n - 1, item)]);
      OwnerSnoc(places + AnswerPlaces(item, from, n - 1), Place(n - 1, item), x);
      OwnerOfPlaces(places, item, from, n - 1, x);
    }
  }

  /** Proposals after the user's message go with the answer, earlier ones do not. */
  lemma OwnerOfAnswer(t: Transcript, proposals: seq<Proposal>, from: nat, x: nat)
    requires RowsGrouped(t.rows) && NamedSound(t.rows, proposals) && IsAnswer(t.rows, from)
    requires from + 1 < |t.rows|
    ensures Owner(PageOf(t, |proposals|, |t.rows|).places, x) == Some(|PageOf(t, |proposals|, from + 1).items|) <==>
              from < x
  {
    PlacesOfAnswer(t, proposals, from, |t.rows|);
    PageIsSound(t, |proposals|, from + 1);
    OwnerOfPlaces(PageOf(t, |proposals|, from + 1).places, |PageOf(t, |proposals|, from + 1).items|, from, |t.rows|, x);
  }

  lemma NamedStays(t: Transcript, count: nat, n: nat, m: nat, p: nat)
    requires n <= m <= |t.rows| && p in PageOf(t, count, n).named
    ensures p in PageOf(t, count, m).named
    decreases m - n
  {
    if n < m {
      NamedStays(t, count, n, m - 1, p);
    }
  }

  /** The answer's named proposal is marked as shown. */
  lemma NamedInAnswer(t: Transcript, proposals: seq<Proposal>, from: nat, n: nat, p: nat)
    requires RowsGrouped(t.rows) && NamedSound(t.rows, proposals) && IsAnswer(t.rows, from)
    requires p < |proposals| && from < proposals[p].position < n <= |t.rows| && IsNamed(t.rows, proposals, p)
    ensures p in PageOf(t, |proposals|, n).named
  {
    var i := proposals[p].position;
    assert ShowsOwn(t.rows[i], i, proposals);
    FirstRowOfAnswer(t.rows, from);
    PageOfAnswer(t, proposals, from, i);
    ResultIsOwn(t, proposals, i, BLANK);
    NamedStays(t, |proposals|, i + 1, n, p);
  }

  // --- The proposals no message names -----------------------------------------------------------

  predicate GoesWith(page: Page, proposals: seq<Proposal>, p: nat, item: nat)
    requires p < |proposals|
  {
    p !in page.named && Owner(page.places, proposals[p].position) == Some(item)
  }

  /** Those of the first n proposals that go with an item. */
  function Going(page: Page, proposals: seq<Proposal>, item: nat, n: nat): seq<nat>
    requires n <= |proposals|
  {
    if n == 0 then []
    else Going(page, proposals, item, n - 1) + (if GoesWith(page, proposals, n - 1, item) then [n - 1] else [])
  }

  predicate SameButCards(before: Item, after: Item, cards: seq<nat>) {
    before.AnswerItem? && after == before.(view := before.view.(cards := before.view.cards + cards))
  }

  lemma {:induction false} UnnamedOnItem(items: seq<Item>, page: Page, proposals: seq<Proposal>, item: nat, n: nat)
    requires item < |items| && items[item].AnswerItem? && n <= |proposals|
    ensures |WithUnnamed(items, page, proposals, Range(n))| == |items|
    ensures SameButCards(items[item], WithUnnamed(items, page, proposals, Range(n))[item],
                         Going(page, proposals, item, n))
  {
    if n > 0 {
      assert Range(n)[..n - 1] == Range(n - 1);
      UnnamedOnItem(items, page, proposals, item, n - 1);
      var cards := items[item].view.cards;
      assert (cards + Going(page, proposals, item, n - 1)) + [n - 1] ==
          cards + (Going(page, proposals, item, n - 1) + [n - 1]);
    }
  }

  lemma {:induction false} GoingOne(page: Page, proposals: seq<Proposal>, item: nat, shown: Option<nat>, n: nat)
    requires n <= |proposals|
    requires forall q | 0 <= q < n && GoesWith(page, proposals, q, item) :: shown == Some(q)
    ensures Going(page, proposals, item, n) ==
            if shown.Some? && shown.value < n && GoesWith(page, proposals, shown.value, item) then [shown.value] else []
  {
    if n > 0 {
      GoingOne(page, proposals, item, shown, n - 1);
    }
  }

  // --- The answer, reopened ------------------------------------------------------------------------

  /** The answer the items end with, if they end with one. */
  function LastAnswer(items: seq<Item>): Option<View> {
    if items != [] && items[|items| - 1].AnswerItem? then Some(items[|items| - 1].view) else None
  }

  /** The answer that reopening the conversation shows last. */
  function ReopenedAnswer(s: State): Option<View> {
    LastAnswer(Reopened(s.thread, s.desk.proposals))
  }

  /** What stays on screen once the stream has closed. */
  function Closed(view: View): View {
    if view.shape == Streamed then view.(shape := CutShort) else view
  }

  /** The answer with the message that any reopened answer's error has. */
  function Restated(view: View): View {
    view.(error := if view.error.Some? then Some(Unfinished(view.error.value.code)) else None)
  }

  /** The turn's proposal is the only one since the user's message. */
  predicate OnlyShown(proposals: seq<Proposal>, from: nat, shown: Option<nat>) {
    && (forall q | 0 <= q < |proposals| && proposals[q].position > from :: shown == Some(q))
    && (shown.Some? ==> shown.value < |proposals| && proposals[shown.value].position > from)
  }

  function Unstored(t: Transcript, proposals: seq<Proposal>, shown: Option<nat>): seq<nat> {
    if shown.Some? && !IsNamed(t.rows, proposals, shown.value) then [shown.value] else []
  }

  lemma GoingIs(t: Transcript, proposals: seq<Proposal>, from: nat, shown: Option<nat>)
    requires RowsGrouped(t.rows) && NamedSound(t.rows, proposals)
    requires IsAnswer(t.rows, from) && from + 1 < |t.rows| && OnlyShown(proposals, from, shown)
    ensures var page, item := PageOf(t, |proposals|, |t.rows|), |PageOf(t, |proposals|, from + 1).items|;
            Going(page, proposals, item, |proposals|) == Unstored(t, proposals, shown)
  {
    var n := |t.rows|;
    var page, item := PageOf(t, |proposals|, n), |PageOf(t, |proposals|, from + 1).items|;
    forall q | 0 <= q < |proposals| && GoesWith(page, proposals, q, item)
      ensures shown == Some(q)
    {
      OwnerOfAnswer(t, proposals, from, proposals[q].position);
    }
    GoingOne(page, proposals, item, shown, |proposals|);
    if shown.Some? {
      OwnerOfAnswer(t, proposals, from, proposals[shown.value].position);
      NamedOnPage(t, proposals, n);
      if IsNamed(t.rows, proposals, shown.value) {
        NamedInAnswer(t, proposals, from, n, shown.value);
      }
    }
  }

  lemma UnnamedAtEnd(items: seq<Item>, page: Page, proposals: seq<Proposal>, item: nat, view: View)
    requires |items| == item + 1 && items[item].AnswerItem? && items[item].view == view
    ensures LastAnswer(WithUnnamed(items, page, proposals, Range(|proposals|))) ==
            Some(view.(cards := view.cards + Going(page, proposals, item, |proposals|)))
  {
    UnnamedOnItem(items, page, proposals, item, |proposals|);
  }

  lemma ReopenedEnds(t: Transcript, proposals: seq<Proposal>, page: Page, item: nat, view: View)
    requires InOrder(proposals) && page == PageOf(t, |proposals|, |t.rows|)
    requires |page.items| == item + 1 && page.items[item].AnswerItem? && page.items[item].view == view
    ensures LastAnswer(Reopened(t, proposals)) ==
            Some(view.(cards := view.cards + Going(page, proposals, item, |proposals|)))
  {
    ListedInOrder(proposals, |proposals|);
    UnnamedAtEnd(page.items, page, proposals, item, view);
  }

  /** The reopened conversation ends with the answer its rows give, with the proposal that no row names yet. */
  lemma ReopenedIs(t: Transcript, proposals: seq<Proposal>, from: nat, shown: Option<nat>)
    requires RowsGrouped(t.rows) && NamedSound(t.rows, proposals) && InOrder(proposals)
    requires IsAnswer(t.rows, from) && from + 1 < |t.rows| && OnlyShown(proposals, from, shown)
    ensures LastAnswer(Reopened(t, proposals)) ==
            Some(StoredView(t, from).(cards := StoredView(t, from).cards + Unstored(t, proposals, shown)))
  {
    PageOfAnswer(t, proposals, from, |t.rows|);
    GoingIs(t, proposals, from, shown);
    ReopenedEnds(t, proposals, PageOf(t, |proposals|, |t.rows|), |PageOf(t, |proposals|, from + 1).items|,
                 StoredView(t, from));
  }

  lemma {:induction false} NoAnswerYet(t: Transcript, proposals: seq<Proposal>, from: nat)
    requires from + 1 == |t.rows| && t.rows[from].role == User
    ensures LastAnswer(Reopened(t, proposals)) == None
  {
    var page := PageOf(t, |proposals|, |t.rows|);
    UnnamedKeepsOthers(page.items, page, proposals, Listed(proposals, |proposals|), |page.items| - 1);
  }

  lemma {:induction false} UnnamedKeepsOthers(items: seq<Item>, page: Page, proposals: seq<Proposal>,
                                              order: seq<nat>, k: nat)
    requires k < |items| && !items[k].AnswerItem?
    requires forall j | 0 <= j < |order| :: order[j] < |proposals|
    ensures |WithUnnamed(items, page, proposals, order)| == |items|
    ensures WithUnnamed(items, page, proposals, order)[k] == items[k]
  {
    if order != [] {
      UnnamedKeepsOthers(items, page, proposals, order[..|order| - 1], k);
    }
  }

  /** The answer that reopening shows, from what the turn stored. */
  predicate Agrees(turn: Turn, view: Option<View>, stored: View, started: bool) {
    view == if started then Some(stored.(cards := Listing(turn.shown))) else None
  }

  lemma ReopenedAgrees(t: Transcript, proposals: seq<Proposal>, turn: Turn)
    requires RowsGrouped(t.rows) && NamedSound(t.rows, proposals) && InOrder(proposals)
    requires TurnSound(t, proposals, turn) && LiveSound(t, proposals, turn)
    ensures Agrees(turn, LastAnswer(Reopened(t, proposals)), StoredView(t, turn.from), turn.from + 1 < |t.rows|)
  {
    if turn.from + 1 < |t.rows| {
      ReopenedIs(t, proposals, turn.from, turn.shown);
      assert StoredView(t, turn.from).cards + Unstored(t, proposals, turn.shown) == Listing(turn.shown);
    } else {
      NoAnswerYet(t, proposals, turn.from);
    }
  }

  lemma ViewsMatch(t: Transcript, proposals: seq<Proposal>, turn: Turn, view: Option<View>)
    requires turn.from < |t.rows| && LiveSound(t, proposals, turn)
    requires Agrees(turn, view, StoredView(t, turn.from), turn.from + 1 < |t.rows|)
    ensures var live, shown := OnScreen(turn.events), view.GetOr(BLANK);
            && live.text == shown.text + turn.answer
            && live.sources == shown.sources
            && (turn.from + 1 < |t.rows| || turn.shown.None? ==> live.cards == shown.cards)
    ensures view == Some(Restated(Closed(OnScreen(turn.events)))) <==> turn.phase.Over? && turn.phase.ending != Stopped
    ensures view == Some(Closed(OnScreen(turn.events))) <==>
            || turn.phase == Over(Whole)
            || (turn.phase == Over(BrokeOff) && Restated(OnScreen(turn.events)) == OnScreen(turn.events))
  {
    var live, stored := OnScreen(turn.events), StoredView(t, turn.from);
    Assoc(stored.text, [], []);
    if turn.phase.Over? && turn.phase.ending != Stopped {
      assert live.text == stored.text;
      assert Closed(live) == live;
    }
  }

  lemma ShownAfterRow(t: Transcript, proposals: seq<Proposal>, turn: Turn)
    requires TurnSound(t, proposals, turn) && LiveSound(t, proposals, turn) && AllPlaced(t.rows, proposals)
    ensures turn.shown.Some? ==> turn.from + 1 < |t.rows|
  {
    if turn.shown.Some? {
      assert Placed(t.rows, proposals[turn.shown.value]);
      assert proposals[turn.shown.value].position == |t.rows| ==> t.rows[|t.rows| - 1].role != User;
    }
  }

  lemma TurnIn(states: seq<State>, steps: seq<Step>, k: nat)
    requires Run(states, steps) && k < |states| && states[k].turn.Some?
    ensures var s, turn := states[k], states[k].turn.value;
            && turn.from < |s.thread.rows| && LiveSound(s.thread, s.desk.proposals, turn)
            && Agrees(turn, ReopenedAnswer(s), StoredView(s.thread, turn.from), turn.from + 1 < |s.thread.rows|)
            && (turn.shown.Some? ==> turn.from + 1 < |s.thread.rows|)
  {
    RunKeeps(states, steps, k);
    RunKeepsLive(states, steps, k);
    ReopenedAgrees(states[k].thread, states[k].desk.proposals, states[k].turn.value);
    ShownAfterRow(states[k].thread, states[k].desk.proposals, states[k].turn.value);
  }

  /** At any moment of a turn, reopening the conversation shows the sources and proposals that the
      events showed, and their text but for the round being read, whose text is stored only at its end. */
  lemma ReopenedMatches(states: seq<State>, steps: seq<Step>, k: nat)
    requires Run(states, steps) && k < |states| && states[k].turn.Some?
    ensures var live, view := OnScreen(states[k].turn.value.events), ReopenedAnswer(states[k]).GetOr(BLANK);
            && live.text == view.text + states[k].turn.value.answer
            && live.sources == view.sources
            && live.cards == view.cards
  {
    TurnIn(states, steps, k);
    ViewsMatch(states[k].thread, states[k].desk.proposals, states[k].turn.value, ReopenedAnswer(states[k]));
  }

  /** Whatever closes the stream, reopening shows the answer left on screen, its text, sources,
      proposals and end, and its error but for the error's message, just when the turn ended by
      itself and its ending was stored: not when the browser left before the end, nor when an error
      outside the reading of an answer stopped it. */
  lemma ReloadRestatesError(states: seq<State>, steps: seq<Step>, k: nat)
    requires Run(states, steps) && k < |states| && states[k].turn.Some?
    ensures ReopenedAnswer(states[k]) == Some(Restated(Closed(OnScreen(states[k].turn.value.events)))) <==>
            states[k].turn.value.phase.Over? && states[k].turn.value.phase.ending != Stopped
  {
    TurnIn(states, steps, k);
    ViewsMatch(states[k].thread, states[k].desk.proposals, states[k].turn.value, ReopenedAnswer(states[k]));
  }

  /** Reopening shows exactly that answer just when it is whole, or its stream broke with an error
      whose message happens to be the one that reopened answers have. */
  lemma LiveEqualsReload(states: seq<State>, steps: seq<Step>, k: nat)
    requires Run(states, steps) && k < |states| && states[k].turn.Some?
    ensures var turn, live := states[k].turn.value, OnScreen(states[k].turn.value.events);
            ReopenedAnswer(states[k]) == Some(Closed(live)) <==>
            turn.phase == Over(Whole) || (turn.phase == Over(BrokeOff) && Restated(live) == live)
  {
    TurnIn(states, steps, k);
    ViewsMatch(states[k].thread, states[k].desk.proposals, states[k].turn.value, ReopenedAnswer(states[k]));
  }
}
