/** What every run of requests keeps of the search indexes. */
module IndexInvariants {
  import opened Wrappers
  import opened Chunking
  import opened IndexState

  /** Thoughts are listed once each; at most one index is active and one building; versions differ. */
  ghost predicate Sane(st: State) {
    && Known(st.thoughts, st.order)
    && (forall t :: t in st.thoughts ==> t in st.order)
    && (forall i, j | 0 <= i < j < |st.order| :: st.order[i] != st.order[j])
    && OneEach(st.indexes)
  }

  ghost predicate OneEach(indexes: map<nat, Index>) {
    && (forall i, j | i in indexes && j in indexes && i != j :: Apart(indexes[i], indexes[j]))
    && (forall i | i in indexes :: indexes[i].version >= 1)
  }

  predicate Apart(a: Index, b: Index) {
    a.version != b.version && (a.status != b.status || a.status == Retired)
  }

  /** An entry is one of its thought's pieces, as its own index's model embeds it, and its index is in use. */
  predicate Right(pieces: Splitter, thoughts: map<nat, Content>, indexes: map<nat, Index>, k: Key, e: Entry) {
    && k.index in indexes && indexes[k.index].status != Retired
    && k.thought in thoughts && k.chunk < |pieces(thoughts[k.thought])|
    && e == EntryFor(indexes[k.index], pieces(thoughts[k.thought])[k.chunk])
  }

  ghost predicate Sound(pieces: Splitter, st: State) {
    forall k | k in st.entries :: Right(pieces, st.thoughts, st.indexes, k, st.entries[k])
  }

  ghost predicate Inv(pieces: Splitter, st: State) {
    Sane(st) && Sound(pieces, st)
  }

  // --- Writing entries ---------------------------------------------------------

  /** The item's pieces are the first ones of its thought as it is now. */
  predicate Current(pieces: Splitter, thoughts: map<nat, Content>, item: Item) {
    item.thought in thoughts && item.pieces <= pieces(thoughts[item.thought])
  }

  predicate AllCurrent(pieces: Splitter, thoughts: map<nat, Content>, items: seq<Item>) {
    forall i | 0 <= i < |items| :: Current(pieces, thoughts, items[i])
  }

  lemma PutLookup(entries: Entries, at: nat, index: Index, item: Item, k: Key)
    ensures k in Put(entries, at, index, item) <==> k in entries || Writes(at, item, k)
    ensures Writes(at, item, k) ==> Put(entries, at, index, item)[k] == EntryFor(index, item.pieces[k.chunk])
    ensures k in entries && !Writes(at, item, k) ==> Put(entries, at, index, item)[k] == entries[k]
  {
    if Writes(at, item, k) {
      assert k == Key(at, item.thought, k.chunk);
      assert k in KeysOf(at, item);
    }
  }

  lemma PutSound(pieces: Splitter, st: State, at: nat, item: Item)
    requires Sound(pieces, st) && Current(pieces, st.thoughts, item)
    requires at in st.indexes && st.indexes[at].status != Retired
    ensures Sound(pieces, st.(entries := Put(st.entries, at, st.indexes[at], item)))
  {
    var entries := Put(st.entries, at, st.indexes[at], item);
    forall k | k in entries
      ensures Right(pieces, st.thoughts, st.indexes, k, entries[k])
    {
      PutLookup(st.entries, at, st.indexes[at], item, k);
    }
  }

  lemma {:induction false} PutAllSound(pieces: Splitter, st: State, at: nat, items: seq<Item>)
    requires Sound(pieces, st) && AllCurrent(pieces, st.thoughts, items)
    requires at in st.indexes && st.indexes[at].status != Retired
    ensures Sound(pieces, st.(entries := PutAll(st.entries, at, st.indexes[at], items)))
    decreases |items|
  {
    if items != [] {
      PutSound(pieces, st, at, items[0]);
      PutAllSound(pieces, st.(entries := Put(st.entries, at, st.indexes[at], items[0])), at, items[1..]);
    }
  }

  lemma CreatedOneEach(st: State, choice: Choice, dimension: nat, status: Status, newId: nat)
    requires OneEach(st.indexes) && newId !in st.indexes
    ensures OneEach(CreateIndex(st, choice, dimension, status, newId).0.indexes)
  {
  }

  lemma CreateKeeps(pieces: Splitter, st: State, choice: Choice, dimension: nat, status: Status, newId: nat)
    requires Inv(pieces, st) && newId !in st.indexes && status != Retired
    ensures
      var (made, i) := CreateIndex(st, choice, dimension, status, newId);
      && Inv(pieces, made) && i in made.indexes && made.indexes[i].status == status
      && made.(indexes := st.indexes) == st
      && (forall j | j in st.indexes :: j in made.indexes && made.indexes[j] == st.indexes[j])
      && (forall j | j in made.indexes :: j in st.indexes || j == i)
  {
    var (made, i) := CreateIndex(st, choice, dimension, status, newId);
    CreatedOneEach(st, choice, dimension, status, newId);
    forall k | k in made.entries
      ensures Right(pieces, made.thoughts, made.indexes, k, made.entries[k])
    {
      assert Right(pieces, st.thoughts, st.indexes, k, st.entries[k]);
    }
  }

  lemma EmbedKeeps(pieces: Splitter, st: State, at: Option<nat>, items: seq<Item>, query: bool, answer: Answer,
                   setting: Choice, status: Status, newId: nat)
    requires Inv(pieces, st) && AllCurrent(pieces, st.thoughts, items) && status != Retired
    requires if at.Some? then at.value in st.indexes && st.indexes[at.value].status != Retired else newId !in st.indexes
    ensures Inv(pieces, EmbedForIndex(st, at, items, query, answer, setting, status, newId).st)
    ensures EmbedForIndex(st, at, items, query, answer, setting, status, newId).st.thoughts == st.thoughts
  {
    if answer.Answered? {
      var made, i := st, at.GetOr(0);
      if at.None? {
        CreateKeeps(pieces, st, setting, answer.dimension, status, newId);
        var (m, j) := CreateIndex(st, setting, answer.dimension, status, newId);
        made, i := m, j;
      }
      PutAllSound(pieces, made, i, items);
    }
  }

  // --- The requests ------------------------------------------------------------

  lemma ItemsCurrent(pieces: Splitter, before: map<nat, Content>, thoughts: map<nat, Content>, ids: seq<nat>)
    requires Known(before, ids)
    requires forall i | 0 <= i < |ids| :: ids[i] in thoughts && thoughts[ids[i]] == before[ids[i]]
    ensures AllCurrent(pieces, thoughts, ItemsOf(pieces, before, ids))
  {
  }

  lemma StoredKeeps(pieces: Splitter, st: State, thought: nat, c: Content)
    requires Inv(pieces, st) && thought !in st.thoughts
    ensures Inv(pieces, Stored(st, thought, c))
  {
    var after := Stored(st, thought, c);
    forall k | k in after.entries
      ensures Right(pieces, after.thoughts, after.indexes, k, after.entries[k])
    {
      assert Right(pieces, st.thoughts, st.indexes, k, st.entries[k]);
    }
  }

  /** The items are the thought's new pieces and all of some other thoughts'. */
  lemma ActiveItemsCurrent(pieces: Splitter, st: State, thought: nat, newPieces: seq<Piece>,
                           thoughts: map<nat, Content>)
    requires Inv(pieces, st) && thought in thoughts && newPieces <= pieces(thoughts[thought])
    requires forall t | t in st.thoughts && t != thought :: t in thoughts && thoughts[t] == st.thoughts[t]
    ensures
      var items := ActiveItems(pieces, st, thought, newPieces);
      && AllCurrent(pieces, thoughts, items)
      && items[0] == Item(thought, newPieces)
      && forall n | 1 <= n < |items| ::
        items[n].thought != thought && items[n].pieces == pieces(thoughts[items[n].thought])
  {
    var active := WithStatus(st, Active);
    var backfill := Without(Batch(pieces, st, active, BACKFILL_BATCH), thought);
    BackfillKnown(pieces, st, active, thought);
    WithoutMeaning(Batch(pieces, st, active, BACKFILL_BATCH), thought);
    forall i | 0 <= i < |backfill|
      ensures backfill[i] in thoughts && backfill[i] != thought && thoughts[backfill[i]] == st.thoughts[backfill[i]]
    {
      assert backfill[i] in backfill;
    }
  }

  lemma BuildingCallKeeps(pieces: Splitter, st: State, thought: nat, newPieces: seq<Piece>, answer: Answer,
                          setting: Choice, newId: nat)
    requires Inv(pieces, st) && thought in st.thoughts && newPieces <= pieces(st.thoughts[thought])
    ensures Inv(pieces, BuildingCall(st, thought, newPieces, answer, setting, newId))
  {
    var building := WithStatus(st, Building);
    if building.Some? {
      EmbedKeeps(pieces, st, building, [Item(thought, newPieces)], false, answer, setting, Active, newId);
    }
  }

  lemma IndexThoughtKeeps(pieces: Splitter, st: State, thought: nat, c: Content, add: bool, newPieces: seq<Piece>,
                          answers: Answers, setting: Choice, newId: nat)
    requires Inv(pieces, st) && newId !in st.indexes && newPieces <= pieces(c)
    requires if add then thought !in st.thoughts else thought in st.thoughts && st.thoughts[thought] == c
    ensures Inv(pieces, IndexThought(pieces, st, thought, c, add, newPieces, answers, setting, newId))
  {
    var items := ActiveItems(pieces, st, thought, newPieces);
    var stored := if add then Stored(st, thought, c) else st;
    if add {
      StoredKeeps(pieces, st, thought, c);
    }
    ActiveItemsCurrent(pieces, st, thought, newPieces, stored.thoughts);
    EmbedKeeps(pieces, stored, WithStatus(st, Active), items, false, answers.active, setting, Active, newId);
    var first := EmbedForIndex(stored, WithStatus(st, Active), items, false, answers.active, setting, Active, newId).st;
    BuildingCallKeeps(pieces, first, thought, newPieces, answers.building, setting, newId);
  }

  /** Once the stale entries are gone, what is left of the thought is right for its new fields too. */
  lemma StaleGone(pieces: Splitter, st: State, thought: nat, c: Content)
    requires Splits(pieces) && Inv(pieces, st) && thought in st.thoughts
    ensures Inv(pieces, WithoutStale(st.(thoughts := st.thoughts[thought := c]), thought,
                                     SameButTags(st.thoughts[thought], c)))
  {
    var tagsOnly := SameButTags(st.thoughts[thought], c);
    var after := WithoutStale(st.(thoughts := st.thoughts[thought := c]), thought, tagsOnly);
    forall k | k in after.entries
      ensures Right(pieces, after.thoughts, after.indexes, k, after.entries[k])
    {
      assert Right(pieces, st.thoughts, st.indexes, k, st.entries[k]);
    }
  }

  lemma UpdatedKeeps(pieces: Splitter, st: State, thought: nat, c: Content, answers: Answers,
                     setting: Choice, newId: nat)
    requires Splits(pieces) && Inv(pieces, st) && thought in st.thoughts && newId !in st.indexes
    ensures Inv(pieces, Updated(pieces, st, thought, c, answers, setting, newId))
  {
    var tagsOnly := SameButTags(st.thoughts[thought], c);
    var changed := st.(thoughts := st.thoughts[thought := c]);
    if tagsOnly && c.tags == st.thoughts[thought].tags {
      assert changed == st;
    } else {
      StaleGone(pieces, st, thought, c);
      var newPieces := if tagsOnly && pieces(c) != [] then pieces(c)[..1] else pieces(c);
      IndexThoughtKeeps(pieces, WithoutStale(changed, thought, tagsOnly), thought, c, false, newPieces, answers,
                        setting, newId);
    }
  }

  lemma {:induction false} WithoutKeepsOrder(ids: seq<nat>, thought: nat)
    requires forall i, j | 0 <= i < j < |ids| :: ids[i] != ids[j]
    ensures forall i, j | 0 <= i < j < |Without(ids, thought)| :: Without(ids, thought)[i] != Without(ids, thought)[j]
    decreases |ids|
  {
    if ids != [] {
      WithoutKeepsOrder(ids[1..], thought);
      WithoutMeaning(ids[1..], thought);
      var rest := Without(ids[1..], thought);
      forall j | 0 <= j < |rest|
        ensures rest[j] != ids[0]
      {
        assert rest[j] in rest;
      }
    }
  }

  lemma DeletedKeeps(pieces: Splitter, st: State, thought: nat)
    requires Inv(pieces, st) && thought in st.thoughts
    ensures Inv(pieces, Deleted(st, thought))
  {
    var after := Deleted(st, thought);
    WithoutMeaning(st.order, thought);
    WithoutKeepsOrder(st.order, thought);
    forall i | 0 <= i < |after.order|
      ensures after.order[i] in after.thoughts
    {
      assert after.order[i] in after.order;
    }
    forall k | k in after.entries
      ensures Right(pieces, after.thoughts, after.indexes, k, after.entries[k])
    {
      assert Right(pieces, st.thoughts, st.indexes, k, st.entries[k]);
    }
  }

  lemma SwappedKeeps(pieces: Splitter, st: State, building: nat)
    requires Inv(pieces, st) && IsBuilding(st, building)
    ensures Inv(pieces, Swapped(st, building))
  {
    var after := Swapped(st, building);
    SwappedOneEach(st, building);
    forall k | k in after.entries
      ensures Right(pieces, after.thoughts, after.indexes, k, after.entries[k])
    {
      assert Right(pieces, st.thoughts, st.indexes, k, st.entries[k]);
    }
  }

  lemma SwappedOneEach(st: State, building: nat)
    requires OneEach(st.indexes) && IsBuilding(st, building)
    ensures OneEach(Swapped(st, building).indexes)
  {
    var after := Swapped(st, building).indexes;
    forall i, j | i in after && j in after && i != j
      ensures Apart(after[i], after[j])
    {
      assert Apart(st.indexes[i], st.indexes[j]);
    }
  }

  lemma DroppedKeeps(pieces: Splitter, st: State, i: nat)
    requires Inv(pieces, st) && IsBuilding(st, i)
    ensures Inv(pieces, Dropped(st, i))
  {
    var after := Dropped(st, i);
    forall k | k in after.entries
      ensures Right(pieces, after.thoughts, after.indexes, k, after.entries[k])
    {
      assert Right(pieces, st.thoughts, st.indexes, k, st.entries[k]);
    }
  }

  lemma BatchEmbedded(pieces: Splitter, st: State, at: Option<nat>, budget: int, query: bool, answer: Answer,
                      setting: Choice, status: Status, newId: nat)
    requires Inv(pieces, st) && newId !in st.indexes && status != Retired
    requires at.Some? ==> at.value in st.indexes && st.indexes[at.value].status != Retired
    requires Known(st.thoughts, Batch(pieces, st, at, budget))
    ensures Inv(pieces, EmbedForIndex(st, at, ItemsOf(pieces, st.thoughts, Batch(pieces, st, at, budget)), query,
                                      answer, setting, status, newId).st)
  {
    var batch := Batch(pieces, st, at, budget);
    ItemsCurrent(pieces, st.thoughts, st.thoughts, batch);
    EmbedKeeps(pieces, st, at, ItemsOf(pieces, st.thoughts, batch), query, answer, setting, status, newId);
  }

  /** Every request keeps the indexes sane and sound. */
  lemma StepKeeps(pieces: Splitter, st: State, step: Step)
    requires Splits(pieces) && Inv(pieces, st) && Enabled(st, step)
    ensures Inv(pieces, Next(pieces, st, step))
  {
    match step
    case Add(t, c, answers, setting, newId) =>
      IndexThoughtKeeps(pieces, st, t, c, true, pieces(c), answers, setting, newId);
    case Update(t, c, answers, setting, newId) =>
      UpdatedKeeps(pieces, st, t, c, answers, setting, newId);
    case Delete(t) =>
      DeletedKeeps(pieces, st, t);
    case Search(answer, setting, newId) =>
      BatchIsPrefix(pieces, st, WithStatus(st, Active), BACKFILL_BATCH);
      BatchEmbedded(pieces, st, WithStatus(st, Active), BACKFILL_BATCH, true, answer, setting, Active, newId);
    case Fill(at, answer, setting, newId) =>
      BatchIsPrefix(pieces, st, at, REBUILD_BATCH);
      BatchEmbedded(pieces, st, at, REBUILD_BATCH, false, answer, setting, Building, newId);
    case Swap(b) =>
      SwappedKeeps(pieces, st, b);
    case Drop(b) =>
      DroppedKeeps(pieces, st, b);
  }
}
