/** Pieces that no request fills in again: how they come about, and how long they stay hidden. */
module HiddenPieces {
  import opened Wrappers
  import Text
  import opened Chunking
  import opened IndexState
  import opened IndexInvariants
  import opened IndexRuns
  import opened Completeness

  /** The active index has the thought's head but not this piece of it, so the thought does not count as missing. */
  predicate Hidden(pieces: Splitter, st: State, i: nat, t: nat, chunk: nat) {
    && i in st.indexes && st.indexes[i].status == Active
    && t in st.thoughts && chunk < |pieces(st.thoughts[t])|
    && Key(i, t, 0) in st.entries && Key(i, t, chunk) !in st.entries
  }

  /** The step is about other thoughts, or about none, and replaces no index. */
  predicate PassesBy(step: Step, t: nat) {
    match step
    case Add(u, _, _, _, _) => u != t
    case Update(u, _, _, _, _) => u != t
    case Delete(u) => u != t
    case Search(_, _, _) => true
    case Fill(_, _, _, _) => true
    case Drop(_) => true
    case Swap(_) => false
  }

  predicate AllPassBy(steps: seq<Step>, t: nat) {
    forall k | 0 <= k < |steps| :: PassesBy(steps[k], t)
  }

  /** None of the items is about the thought. */
  predicate NoItem(items: seq<Item>, t: nat) {
    forall n | 0 <= n < |items| :: items[n].thought != t
  }

  lemma OtherItemsKeep(st: State, at: Option<nat>, items: seq<Item>, query: bool, answer: Answer, setting: Choice,
                       status: Status, newId: nat, k: Key)
    requires (if at.Some? then at.value in st.indexes else newId !in st.indexes) && NoItem(items, k.thought)
    ensures
      var e := EmbedForIndex(st, at, items, query, answer, setting, status, newId);
      && (k in e.st.entries <==> k in st.entries)
      && (forall i | i in st.indexes :: i in e.st.indexes && e.st.indexes[i] == st.indexes[i])
      && e.st.thoughts == st.thoughts
  {
    var e := EmbedForIndex(st, at, items, query, answer, setting, status, newId);
    EmbedSpares(st, at, items, query, answer, setting, status, newId);
    EmbedWrites(st, at, items, query, answer, setting, status, newId);
    if e.ok && e.at.Some? && (query || items != []) {
      PutAllKeys(st.entries, e.at.value, e.st.indexes[e.at.value], items, k);
    }
  }

  /** A thought whose head is there is in no batch. */
  lemma NotInBatch(pieces: Splitter, st: State, i: nat, t: nat, budget: int)
    requires Known(st.thoughts, st.order) && Key(i, t, 0) in st.entries
    ensures Known(st.thoughts, Batch(pieces, st, Some(i), budget)) && t !in Batch(pieces, st, Some(i), budget)
  {
    var batch, missing := Batch(pieces, st, Some(i), budget), Missing(st.order, st.entries, Some(i));
    BatchIsPrefix(pieces, st, Some(i), budget);
    MissingMeaning(st.order, st.entries, Some(i));
    assert forall u | u in batch :: u in missing;
  }

  lemma NoneOfItems(pieces: Splitter, thoughts: map<nat, Content>, ids: seq<nat>, t: nat)
    requires Known(thoughts, ids) && t !in ids
    ensures NoItem(ItemsOf(pieces, thoughts, ids), t)
  {
  }

  lemma OnlyActive(st: State, i: nat)
    requires OneEach(st.indexes) && i in st.indexes && st.indexes[i].status == Active
    ensures WithStatus(st, Active) == Some(i)
  {
  }

  lemma ActiveItemsPassBy(pieces: Splitter, st: State, i: nat, t: nat, u: nat, newPieces: seq<Piece>)
    requires Sane(st) && i in st.indexes && st.indexes[i].status == Active && Key(i, t, 0) in st.entries && u != t
    ensures NoItem(ActiveItems(pieces, st, u, newPieces), t)
  {
    OnlyActive(st, i);
    var batch := Batch(pieces, st, Some(i), BACKFILL_BATCH);
    NotInBatch(pieces, st, i, t, BACKFILL_BATCH);
    BackfillKnown(pieces, st, Some(i), u);
    WithoutMeaning(batch, u);
    NoneOfItems(pieces, st.thoughts, IndexState.Without(batch, u), t);
  }

  /** The state after a store or update of another thought: this one's entries and the rows are as they were. */
  lemma IndexThoughtPassesBy(pieces: Splitter, st: State, u: nat, c: Content, add: bool, newPieces: seq<Piece>,
                             answers: Answers, setting: Choice, newId: nat, i: nat, k: Key)
    requires Sane(st) && newId !in st.indexes && i in st.indexes && st.indexes[i].status == Active
    requires Key(i, k.thought, 0) in st.entries && u != k.thought
    ensures
      var after := IndexThought(pieces, st, u, c, add, newPieces, answers, setting, newId);
      && (k in after.entries <==> k in st.entries)
      && i in after.indexes && after.indexes[i] == st.indexes[i]
      && after.thoughts == if add then st.thoughts[u := c] else st.thoughts
  {
    var items := ActiveItems(pieces, st, u, newPieces);
    var stored := if add then Stored(st, u, c) else st;
    ActiveItemsPassBy(pieces, st, i, k.thought, u, newPieces);
    OtherItemsKeep(stored, WithStatus(st, Active), items, false, answers.active, setting, Active, newId, k);
    var first := EmbedForIndex(stored, WithStatus(st, Active), items, false, answers.active, setting, Active, newId).st;
    var b := WithStatus(first, Building);
    if b.Some? {
      OtherItemsKeep(first, b, [Item(u, newPieces)], false, answers.building, setting, Active, newId, k);
    }
  }

  lemma UpdatePassesBy(pieces: Splitter, st: State, u: nat, c: Content, answers: Answers, setting: Choice, newId: nat,
                       i: nat, t: nat, chunk: nat)
    requires Splits(pieces) && Inv(pieces, st) && newId !in st.indexes && u in st.thoughts && u != t
    requires Hidden(pieces, st, i, t, chunk)
    ensures Hidden(pieces, Updated(pieces, st, u, c, answers, setting, newId), i, t, chunk)
  {
    var tagsOnly := SameButTags(st.thoughts[u], c);
    if !(tagsOnly && c.tags == st.thoughts[u].tags) {
      var dropped := WithoutStale(st.(thoughts := st.thoughts[u := c]), u, tagsOnly);
      StaleGone(pieces, st, u, c);
      var newPieces := if tagsOnly && pieces(c) != [] then pieces(c)[..1] else pieces(c);
      IndexThoughtPassesBy(pieces, dropped, u, c, false, newPieces, answers, setting, newId, i, Key(i, t, 0));
      IndexThoughtPassesBy(pieces, dropped, u, c, false, newPieces, answers, setting, newId, i, Key(i, t, chunk));
    }
  }

  lemma SearchPassesBy(pieces: Splitter, st: State, answer: Answer, setting: Choice, newId: nat, i: nat,
                       t: nat, chunk: nat)
    requires Sane(st) && newId !in st.indexes && Hidden(pieces, st, i, t, chunk)
    ensures Hidden(pieces, Searched(pieces, st, answer, setting, newId), i, t, chunk)
  {
    OnlyActive(st, i);
    var batch := Batch(pieces, st, Some(i), BACKFILL_BATCH);
    NotInBatch(pieces, st, i, t, BACKFILL_BATCH);
    NoneOfItems(pieces, st.thoughts, batch, t);
    var items := ItemsOf(pieces, st.thoughts, batch);
    OtherItemsKeep(st, Some(i), items, true, answer, setting, Active, newId, Key(i, t, 0));
    OtherItemsKeep(st, Some(i), items, true, answer, setting, Active, newId, Key(i, t, chunk));
  }

  lemma StepPassesBy(pieces: Splitter, st: State, step: Step, i: nat, t: nat, chunk: nat)
    requires Splits(pieces) && Inv(pieces, st) && Enabled(st, step) && PassesBy(step, t)
    requires Hidden(pieces, st, i, t, chunk)
    ensures Hidden(pieces, Next(pieces, st, step), i, t, chunk)
  {
    match step
    case Add(u, c, answers, setting, newId) =>
      IndexThoughtPassesBy(pieces, st, u, c, true, pieces(c), answers, setting, newId, i, Key(i, t, 0));
      IndexThoughtPassesBy(pieces, st, u, c, true, pieces(c), answers, setting, newId, i, Key(i, t, chunk));
    case Update(u, c, answers, setting, newId) =>
      UpdatePassesBy(pieces, st, u, c, answers, setting, newId, i, t, chunk);
    case Search(answer, setting, newId) =>
      SearchPassesBy(pieces, st, answer, setting, newId, i, t, chunk);
    case Fill(_, _, _, _) =>
      RebuildSparesActive(pieces, st, step, i);
    case Drop(_) =>
      RebuildSparesActive(pieces, st, step, i);
    case Delete(_) =>
    case Swap(_) =>
  }

  /** A hidden piece stays hidden over every run that neither changes nor deletes its thought nor
      swaps in another index: no search, backfill or store of another thought brings it back. */
  lemma {:induction false} HiddenStays(pieces: Splitter, st: State, steps: seq<Step>, end: State, i: nat,
                                       t: nat, chunk: nat)
    requires Splits(pieces) && Inv(pieces, st) && Leads(pieces, st, steps, end) && AllPassBy(steps, t)
    requires Hidden(pieces, st, i, t, chunk)
    ensures Inv(pieces, end) && Hidden(pieces, end, i, t, chunk)
    decreases |steps|
  {
    if steps != [] {
      StepKeeps(pieces, st, steps[0]);
      StepPassesBy(pieces, st, steps[0], i, t, chunk);
      HiddenStays(pieces, Next(pieces, st, steps[0]), steps[1..], end, i, t, chunk);
    }
  }

  /** Its thought is not missing from the index that searches use. */
  lemma HiddenIsNotMissing(pieces: Splitter, st: State, i: nat, t: nat, chunk: nat)
    requires Inv(pieces, st) && Hidden(pieces, st, i, t, chunk)
    ensures WithStatus(st, Active) == Some(i) && t !in Missing(st.order, st.entries, Some(i))
  {
    OnlyActive(st, i);
    MissingMeaning(st.order, st.entries, Some(i));
  }

  // --- How a piece gets hidden ----------------------------------------------------

  /** The piece is hidden, and stays so until its thought is changed or deleted, or the index replaced. */
  ghost predicate HiddenFromNowOn(pieces: Splitter, st: State, i: nat, t: nat, chunk: nat) {
    && Hidden(pieces, st, i, t, chunk)
    && forall steps, end | Leads(pieces, st, steps, end) && AllPassBy(steps, t) :: Hidden(pieces, end, i, t, chunk)
  }

  lemma FromNowOn(pieces: Splitter, st: State, i: nat, t: nat, chunk: nat)
    requires Splits(pieces) && Inv(pieces, st) && Hidden(pieces, st, i, t, chunk)
    ensures HiddenFromNowOn(pieces, st, i, t, chunk)
  {
    forall steps, end | Leads(pieces, st, steps, end) && AllPassBy(steps, t)
      ensures Hidden(pieces, end, i, t, chunk)
    {
      HiddenStays(pieces, st, steps, end, i, t, chunk);
    }
  }

  /** Two requests that hide pieces: a store whose call fails, then new tags whose call works.
      The new active index has the head, so the thought never counts as missing. */
  lemma TagsHideMissingPieces(pieces: Splitter, c: Content, d: Content, setting: Choice) returns (st: State)
    requires Splits(pieces) && SameButTags(c, d) && c.tags != d.tags && |pieces(c)| > 1
    ensures Leads(pieces, NOTHING,
                  [Add(1, c, Answers(Refused, Refused), setting, 1),
                   Update(1, d, Answers(Answered(3), Refused), setting, 1)], st)
    ensures HiddenFromNowOn(pieces, st, 1, 1, 1)
  {
    var first := Add(1, c, Answers(Refused, Refused), setting, 1);
    var second := Update(1, d, Answers(Answered(3), Refused), setting, 1);
    var stored := State([1], map[1 := c], map[], map[]);
    RefusedAddStoresOnly(pieces, 1, c, setting, 1);
    NothingIsRight(pieces);
    StepKeeps(pieces, NOTHING, first);
    st := TagsAfterStore(pieces, stored, d, setting);
    TwoSteps(pieces, NOTHING, first, second);
    FromNowOn(pieces, st, 1, 1, 1);
  }

  lemma TagsAfterStore(pieces: Splitter, stored: State, d: Content, setting: Choice) returns (st: State)
    requires Splits(pieces) && stored.order == [1] && stored.thoughts.Keys == {1} && stored.indexes == map[]
               && stored.entries == map[]
    requires SameButTags(stored.thoughts[1], d) && stored.thoughts[1].tags != d.tags && Inv(pieces, stored)
    requires |pieces(stored.thoughts[1])| > 1
    ensures st == Next(pieces, stored, Update(1, d, Answers(Answered(3), Refused), setting, 1))
    ensures Inv(pieces, st) && Hidden(pieces, st, 1, 1, 1)
  {
    st := Next(pieces, stored, Update(1, d, Answers(Answered(3), Refused), setting, 1));
    UpdatedKeeps(pieces, stored, 1, d, Answers(Answered(3), Refused), setting, 1);
    HeadWrittenAlone(pieces, stored, d, setting);
  }

  /** So it is with the chunker itself: a note of one letter, given a tag. */
  lemma TagHidesRawText(setting: Choice) returns (st: State)
    ensures
      var c := Content("", [], "", Some("x"));
      Leads(Chunking.Pieces, NOTHING,
            [Add(1, c, Answers(Refused, Refused), setting, 1),
             Update(1, c.(tags := ["t"]), Answers(Answered(3), Refused), setting, 1)], st)
    ensures HiddenFromNowOn(Chunking.Pieces, st, 1, 1, 1)
  {
    var c := Content("", [], "", Some("x"));
    ChunkerSplits();
    OneLetterAdds();
    st := TagsHideMissingPieces(Chunking.Pieces, c, c.(tags := ["t"]), setting);
  }

  lemma OneLetterAdds()
    ensures |Chunking.Pieces(Content("", [], "", Some("x")))| > 1
  {
    Text.KnownSpaces();
    assert !Text.IsSpace("x"[0]);
    AddsToNothing("x");
    RangesOnlyWhenItAdds(Some("x"), "");
  }

  lemma HeadWrittenAlone(pieces: Splitter, st: State, d: Content, setting: Choice)
    requires Splits(pieces) && st.order == [1] && st.thoughts.Keys == {1} && st.indexes == map[] && st.entries == map[]
    requires SameButTags(st.thoughts[1], d) && st.thoughts[1].tags != d.tags && Inv(pieces, st)
    ensures
      var after := Updated(pieces, st, 1, d, Answers(Answered(3), Refused), setting, 1);
      && after.order == [1] && after.thoughts == map[1 := d] && 1 in after.indexes && after.indexes[1].status == Active
      && Key(1, 1, 0) in after.entries && Key(1, 1, 1) !in after.entries
  {
    var changed := WithoutStale(st.(thoughts := st.thoughts[1 := d]), 1, true);
    StaleGone(pieces, st, 1, d);
    var newPieces := pieces(d)[..1];
    var items := ActiveItems(pieces, changed, 1, newPieces);
    ActiveItemsCurrent(pieces, changed, 1, newPieces, changed.thoughts);
    HeadOnlyWritten(changed, None, items, Answered(3), setting, 1, 1);
    CallOk(changed, None, items, Answered(3), setting, 1);
    var e := EmbedForIndex(changed, None, items, false, Answered(3), setting, Active, 1);
    EmbedSpares(changed, None, items, false, Answered(3), setting, Active, 1);
    assert WithStatus(e.st, Building) == None;
  }
}
