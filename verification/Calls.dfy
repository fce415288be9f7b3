/** When an embeddings call for an index works, and what a call that works leaves in the index. */
module Calls {
  import opened Wrappers
  import opened Chunking
  import opened Embeddings
  import opened IndexState
  import opened IndexInvariants
  import opened IndexRuns
  import opened Completeness

  /** What a provider's vectors, or its failure, mean for the call. */
  function AnswerOf(result: Result<seq<Vector>, Error>): Answer {
    match result
    case Err(_) => Refused
    case Ok(vectors) => if vectors == [] then Refused else Answered(vectors[0].dimension)
  }

  function AnswerTo(provider: Provider, model: string, texts: seq<string>): Answer {
    AnswerOf(Embedded(provider, model, texts))
  }

  function TextsOf(pieces: seq<Piece>): seq<string> {
    seq(|pieces|, i requires 0 <= i < |pieces| => pieces[i].text)
  }

  /** The items' texts, one item's after the other's. */
  function ItemTexts(items: seq<Item>): seq<string> {
    if items == [] then [] else TextsOf(items[0].pieces) + ItemTexts(items[1..])
  }

  /** A query's text for each model that may embed it. */
  type Query = string -> string

  /** A query after the model's instruction. */
  function Asked(instruction: string -> string, query: string): Query {
    model => instruction(model) + query
  }

  /** The texts of one call: the query's, if there is one, and the items'. */
  function CallTexts(query: Option<Query>, model: string, items: seq<Item>): seq<string> {
    (match query case None => [] case Some(text) => [text(model)]) + ItemTexts(items)
  }

  /** The index's model, or the setting's when an index is still to be made. */
  function CallModel(st: State, at: Option<nat>, setting: Choice): string
    requires at.Some? ==> at.value in st.indexes
  {
    if at.Some? then st.indexes[at.value].choice.model else setting.model
  }

  /** The provider answers every batch of the call's texts in full, with vectors of one length, and
      that is the index's, if there is one. */
  ghost predicate CallWorks(provider: Provider, st: State, at: Option<nat>, setting: Choice, query: Option<Query>,
                            items: seq<Item>)
    requires at.Some? ==> at.value in st.indexes
  {
    var model := CallModel(st, at, setting);
    exists d: nat ::
      && AnswersAll(provider, model, CallTexts(query, model, items), d)
      && (at.Some? ==> d == st.indexes[at.value].dimension)
  }

  lemma AnswerExactly(provider: Provider, model: string, texts: seq<string>, d: nat)
    requires texts != []
    ensures AnswerTo(provider, model, texts) == Answered(d) <==> AnswersAll(provider, model, texts, d)
  {
    EmbeddedExactly(provider, model, texts, d);
  }

  /** The call writes its entries exactly when it works. */
  lemma WritesIfWorks(provider: Provider, st: State, at: Option<nat>, setting: Choice, query: Option<Query>,
                      items: seq<Item>)
    requires (at.Some? ==> at.value in st.indexes) && (query.Some? || ItemTexts(items) != [])
    ensures var model := CallModel(st, at, setting);
            CallWrites(st, at, AnswerTo(provider, model, CallTexts(query, model, items))) <==>
              CallWorks(provider, st, at, setting, query, items)
  {
    var model := CallModel(st, at, setting);
    var texts := CallTexts(query, model, items);
    assert texts != [];
    var answer := AnswerTo(provider, model, texts);
    if answer.Answered? {
      AnswerExactly(provider, model, texts, answer.dimension);
    }
    if CallWorks(provider, st, at, setting, query, items) {
      var d: nat :| AnswersAll(provider, model, texts, d) && (at.Some? ==> d == st.indexes[at.value].dimension);
      AnswerExactly(provider, model, texts, d);
    }
  }

  // --- What a call that works leaves ---------------------------------------------

  /** The index has the first pieces of the thought, so many of them. */
  predicate HasFirst(entries: Entries, i: nat, t: nat, count: nat) {
    forall chunk: nat | chunk < count :: Key(i, t, chunk) in entries
  }

  lemma ItemsWritten(st: State, at: Option<nat>, items: seq<Item>, query: bool, answer: Answer, setting: Choice,
                     status: Status, newId: nat, n: nat)
    requires (if at.Some? then at.value in st.indexes else newId !in st.indexes) && n < |items|
    ensures
      var e := EmbedForIndex(st, at, items, query, answer, setting, status, newId);
      e.ok ==> e.at.Some? && HasFirst(e.st.entries, e.at.value, items[n].thought, |items[n].pieces|)
  {
    var e := EmbedForIndex(st, at, items, query, answer, setting, status, newId);
    EmbedWrites(st, at, items, query, answer, setting, status, newId);
    if e.ok {
      forall chunk: nat | chunk < |items[n].pieces|
        ensures Key(e.at.value, items[n].thought, chunk) in e.st.entries
      {
        var k := Key(e.at.value, items[n].thought, chunk);
        assert Writes(e.at.value, items[n], k);
        PutAllKeys(st.entries, e.at.value, e.st.indexes[e.at.value], items, k);
      }
    }
  }

  /** The index has every piece of each of these thoughts, but perhaps of one. */
  ghost predicate HasAllOf(pieces: Splitter, st: State, i: nat, ids: seq<nat>, but: Option<nat>) {
    forall n | 0 <= n < |ids| && Some(ids[n]) != but && ids[n] in st.thoughts ::
      HasFirst(st.entries, i, ids[n], |pieces(st.thoughts[ids[n]])|)
  }

  lemma ItemAt(pieces: Splitter, thoughts: map<nat, Content>, t: nat, newPieces: seq<Piece>, ids: seq<nat>, u: nat)
      returns (n: nat)
    requires Known(thoughts, IndexState.Without(ids, t)) && u in ids && u != t
    ensures
      var items := [Item(t, newPieces)] + ItemsOf(pieces, thoughts, IndexState.Without(ids, t));
      u in thoughts && 1 <= n < |items| && items[n] == Item(u, pieces(thoughts[u]))
  {
    WithoutMeaning(ids, t);
    var rest := IndexState.Without(ids, t);
    var m :| 0 <= m < |rest| && rest[m] == u;
    n := m + 1;
  }

  /** What the first call of a store or an update leaves, if it works. */
  lemma FirstFills(pieces: Splitter, st: State, stored: State, t: nat, newPieces: seq<Piece>, answers: Answers,
                   setting: Choice, newId: nat) returns (first: State)
    requires Inv(pieces, st) && Inv(pieces, stored) && newId !in st.indexes && stored.indexes == st.indexes
    requires t in stored.thoughts && newPieces <= pieces(stored.thoughts[t])
    requires forall u | u in st.thoughts && u != t :: u in stored.thoughts && stored.thoughts[u] == st.thoughts[u]
    ensures first == EmbedForIndex(stored, WithStatus(st, Active), ActiveItems(pieces, st, t, newPieces), false,
                                   answers.active, setting, Active, newId).st
    ensures SameBuilding(stored, first) && first.thoughts == stored.thoughts
    ensures
      var active := WithStatus(st, Active);
      CallWrites(st, active, answers.active) ==>
        && WithStatus(first, Active) == Some(active.GetOr(newId))
        && HasFirst(first.entries, active.GetOr(newId), t, |newPieces|)
        && HasAllOf(pieces, first, active.GetOr(newId), Batch(pieces, st, active, BACKFILL_BATCH), Some(t))
  {
    var active := WithStatus(st, Active);
    var items, e := AfterActiveCall(pieces, st, stored, t, newPieces, answers, setting, newId);
    first := e.st;
    if CallWrites(st, active, answers.active) {
      ItemsWritten(stored, active, items, false, answers.active, setting, Active, newId, 0);
      CarriedAlong(pieces, st, stored, t, newPieces, answers.active, setting, newId);
      ActiveItemsCurrent(pieces, st, t, newPieces, stored.thoughts);
      EmbedKeeps(pieces, stored, active, items, false, answers.active, setting, Active, newId);
      MadeActive(stored, active, items, answers.active, setting, newId);
      OneActive(first, active.GetOr(newId));
    }
  }

  lemma OneActive(st: State, i: nat)
    requires OneEach(st.indexes) && i in st.indexes && st.indexes[i].status == Active
    ensures WithStatus(st, Active) == Some(i)
  {
  }

  lemma StaysFilled(pieces: Splitter, first: State, after: State, i: nat, ids: seq<nat>, t: nat, count: nat)
    requires after.indexes == first.indexes && after.thoughts == first.thoughts && Covers(after.entries, first.entries)
    requires OneEach(first.indexes)
    ensures WithStatus(after, Active) == WithStatus(first, Active)
    ensures HasFirst(first.entries, i, t, count) ==> HasFirst(after.entries, i, t, count)
    ensures HasAllOf(pieces, first, i, ids, Some(t)) ==> HasAllOf(pieces, after, i, ids, Some(t))
  {
    SameRowsSameStatuses(first, after);
  }

  lemma FirstOneEach(pieces: Splitter, st: State, stored: State, t: nat, newPieces: seq<Piece>, answer: Answer,
                     setting: Choice, newId: nat)
    requires Inv(pieces, st) && Inv(pieces, stored) && newId !in st.indexes && stored.indexes == st.indexes
    requires t in stored.thoughts && newPieces <= pieces(stored.thoughts[t])
    requires forall u | u in st.thoughts && u != t :: u in stored.thoughts && stored.thoughts[u] == st.thoughts[u]
    ensures Inv(pieces, EmbedForIndex(stored, WithStatus(st, Active), ActiveItems(pieces, st, t, newPieces), false,
                                      answer, setting, Active, newId).st)
  {
    ActiveItemsCurrent(pieces, st, t, newPieces, stored.thoughts);
    EmbedKeeps(pieces, stored, WithStatus(st, Active), ActiveItems(pieces, st, t, newPieces), false, answer, setting,
               Active, newId);
  }

  /** A store's or an update's calls that work leave the new pieces in their indexes, and the
      active index with the thoughts that the first carried along. */
  lemma StoreFills(pieces: Splitter, st: State, t: nat, c: Content, add: bool, newPieces: seq<Piece>,
                   answers: Answers, setting: Choice, newId: nat)
    requires Inv(pieces, st) && newId !in st.indexes && newPieces <= pieces(c)
    requires if add then t !in st.thoughts else t in st.thoughts && st.thoughts[t] == c
    ensures
      var active := WithStatus(st, Active);
      var after := IndexThought(pieces, st, t, c, add, newPieces, answers, setting, newId);
      CallWrites(st, active, answers.active) ==>
        && WithStatus(after, Active) == Some(active.GetOr(newId))
        && HasFirst(after.entries, active.GetOr(newId), t, |newPieces|)
        && HasAllOf(pieces, after, active.GetOr(newId), Batch(pieces, st, active, BACKFILL_BATCH), Some(t))
    ensures
      var building := WithStatus(st, Building);
      var after := IndexThought(pieces, st, t, c, add, newPieces, answers, setting, newId);
      building.Some? && CallWrites(st, building, answers.building) ==>
        HasFirst(after.entries, building.value, t, |newPieces|)
  {
    var active, building := WithStatus(st, Active), WithStatus(st, Building);
    var stored := if add then Stored(st, t, c) else st;
    if add {
      StoredKeeps(pieces, st, t, c);
    }
    var first := FirstFills(pieces, st, stored, t, newPieces, answers, setting, newId);
    FirstOneEach(pieces, st, stored, t, newPieces, answers.active, setting, newId);
    BuildingFills(first, t, newPieces, answers.building, setting, newId);
    var after := BuildingCall(first, t, newPieces, answers.building, setting, newId);
    StaysFilled(pieces, first, after, active.GetOr(newId), Batch(pieces, st, active, BACKFILL_BATCH), t, |newPieces|);
    SameRowsSameStatuses(st, stored);
    assert building.Some? ==>
      CallWrites(first, building, answers.building) == CallWrites(st, building, answers.building);
  }

  /** What a store or an update of a thought does to the entries, for what the provider answers:
      `embedded` says whether the first call works, with some missing thoughts carried along; the
      pieces are in each index whose call works. */
  ghost predicate PiecesStored(pieces: Splitter, provider: Provider, st: State, setting: Choice, newId: nat, t: nat,
                               newPieces: seq<Piece>, embedded: bool, after: State)
    requires Known(st.thoughts, st.order)
  {
    var active, building := WithStatus(st, Active), WithStatus(st, Building);
    && (embedded <==> CallWorks(provider, st, active, setting, None, ActiveItems(pieces, st, t, newPieces)))
    && (embedded ==>
          && WithStatus(after, Active) == Some(active.GetOr(newId))
          && HasFirst(after.entries, active.GetOr(newId), t, |newPieces|)
          && HasAllOf(pieces, after, active.GetOr(newId), Batch(pieces, st, active, BACKFILL_BATCH), Some(t)))
    && (building.Some? && CallWorks(provider, st, building, setting, None, [Item(t, newPieces)]) ==>
          HasFirst(after.entries, building.value, t, |newPieces|))
  }

  lemma MadeActive(st: State, active: Option<nat>, items: seq<Item>, answer: Answer, setting: Choice, newId: nat)
    requires active == WithStatus(st, Active) && newId !in st.indexes
    ensures
      var e := EmbedForIndex(st, active, items, false, answer, setting, Active, newId);
      CallWrites(st, active, answer) && items != [] ==>
        active.GetOr(newId) in e.st.indexes && e.st.indexes[active.GetOr(newId)].status == Active
  {
  }

  /** The building index's call changes no row, takes no entry away, and writes what it should. */
  lemma BuildingFills(st: State, t: nat, newPieces: seq<Piece>, answer: Answer, setting: Choice, newId: nat)
    ensures
      var b, after := WithStatus(st, Building), BuildingCall(st, t, newPieces, answer, setting, newId);
      && after.indexes == st.indexes && after.thoughts == st.thoughts && Covers(after.entries, st.entries)
      && (b.Some? && CallWrites(st, b, answer) ==> HasFirst(after.entries, b.value, t, |newPieces|))
  {
    var b := WithStatus(st, Building);
    if b.Some? {
      CallOk(st, b, [Item(t, newPieces)], answer, setting, newId);
      ItemsWritten(st, b, [Item(t, newPieces)], false, answer, setting, Active, newId, 0);
      EmbedSpares(st, b, [Item(t, newPieces)], false, answer, setting, Active, newId);
    }
  }

  lemma CarriedAlong(pieces: Splitter, st: State, stored: State, t: nat, newPieces: seq<Piece>, answer: Answer,
                     setting: Choice, newId: nat)
    requires Inv(pieces, st) && newId !in st.indexes && stored.indexes == st.indexes
    requires forall u | u in st.thoughts && u != t :: u in stored.thoughts && stored.thoughts[u] == st.thoughts[u]
    ensures
      var active, items := WithStatus(st, Active), ActiveItems(pieces, st, t, newPieces);
      var e := EmbedForIndex(stored, active, items, false, answer, setting, Active, newId);
      e.ok ==>
        && e.at.Some? && e.st.thoughts == stored.thoughts
        && HasAllOf(pieces, e.st, e.at.value, Batch(pieces, st, active, BACKFILL_BATCH), Some(t))
  {
    var active, items := WithStatus(st, Active), ActiveItems(pieces, st, t, newPieces);
    var batch := Batch(pieces, st, active, BACKFILL_BATCH);
    var e := EmbedForIndex(stored, active, items, false, answer, setting, Active, newId);
    EmbedWrites(stored, active, items, false, answer, setting, Active, newId);
    BackfillKnown(pieces, st, active, t);
    if e.ok {
      forall m | 0 <= m < |batch| && batch[m] != t && batch[m] in e.st.thoughts
        ensures HasFirst(e.st.entries, e.at.value, batch[m], |pieces(e.st.thoughts[batch[m]])|)
      {
        var n := ItemAt(pieces, st.thoughts, t, newPieces, batch, batch[m]);
        ItemsWritten(stored, active, items, false, answer, setting, Active, newId, n);
      }
    }
  }

  /** A search whose call works leaves the active index with the thoughts that it carried along. */
  lemma SearchFills(pieces: Splitter, st: State, answer: Answer, setting: Choice, newId: nat)
    requires Sane(st) && newId !in st.indexes && st.thoughts != map[]
    ensures
      var active, after := WithStatus(st, Active), Searched(pieces, st, answer, setting, newId);
      CallWrites(st, active, answer) ==>
        && after.thoughts == st.thoughts
        && HasAllOf(pieces, after, active.GetOr(newId), Batch(pieces, st, active, BACKFILL_BATCH), None)
  {
    var active := WithStatus(st, Active);
    var batch := Batch(pieces, st, active, BACKFILL_BATCH);
    BatchIsPrefix(pieces, st, active, BACKFILL_BATCH);
    var items := ItemsOf(pieces, st.thoughts, batch);
    SearchCallOk(st, active, items, answer, setting, newId);
    EmbedWrites(st, active, items, true, answer, setting, Active, newId);
    forall n | 0 <= n < |batch| && CallWrites(st, active, answer)
      ensures HasFirst(Searched(pieces, st, answer, setting, newId).entries, active.GetOr(newId), batch[n],
                       |pieces(st.thoughts[batch[n]])|)
    {
      ItemsWritten(st, active, items, true, answer, setting, Active, newId, n);
    }
  }

  lemma SearchCallOk(st: State, active: Option<nat>, items: seq<Item>, answer: Answer, setting: Choice, newId: nat)
    requires active == WithStatus(st, Active) && newId !in st.indexes
    ensures
      var e := EmbedForIndex(st, active, items, true, answer, setting, Active, newId);
      && (e.ok <==> CallWrites(st, active, answer))
      && (e.ok ==> e.at == Some(active.GetOr(newId)))
  {
  }

  /** One batch of a rebuild that works leaves the building index with all of its thoughts' pieces. */
  lemma FillFills(pieces: Splitter, st: State, at: Option<nat>, answer: Answer, setting: Choice, newId: nat)
    requires Inv(pieces, st) && WithStatus(st, Building) == at && newId !in st.indexes
    requires Missing(st.order, st.entries, at) != [] && Batch(pieces, st, at, REBUILD_BATCH) != []
    ensures
      var e := Filled(pieces, st, at, answer, setting, newId);
      && (e.ok <==> CallWrites(st, at, answer))
      && (e.ok ==>
            && e.at.Some? && e.st.thoughts == st.thoughts
            && HasAllOf(pieces, e.st, e.at.value, Batch(pieces, st, at, REBUILD_BATCH), None))
  {
    var batch := Batch(pieces, st, at, REBUILD_BATCH);
    BatchIsPrefix(pieces, st, at, REBUILD_BATCH);
    var items := ItemsOf(pieces, st.thoughts, batch);
    FillCallOk(st, at, items, answer, setting, newId);
    EmbedWrites(st, at, items, false, answer, setting, Building, newId);
    forall n | 0 <= n < |batch| && CallWrites(st, at, answer)
      ensures var e := Filled(pieces, st, at, answer, setting, newId);
              e.at.Some? && HasFirst(e.st.entries, e.at.value, batch[n], |pieces(st.thoughts[batch[n]])|)
    {
      ItemsWritten(st, at, items, false, answer, setting, Building, newId, n);
    }
  }

  lemma FillCallOk(st: State, at: Option<nat>, items: seq<Item>, answer: Answer, setting: Choice, newId: nat)
    requires at == WithStatus(st, Building) && newId !in st.indexes && items != []
    ensures
      var e := EmbedForIndex(st, at, items, false, answer, setting, Building, newId);
      (e.ok <==> CallWrites(st, at, answer)) && (e.ok ==> e.at == Some(at.GetOr(newId)))
  {
  }
}
