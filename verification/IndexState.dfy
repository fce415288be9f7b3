/** One user's thoughts and search indexes as values, and what each request does to them. */
module IndexState {
  import opened Wrappers
  import opened Chunking
  import opened Embeddings

  /** Missing texts filled in per request, and texts per call while rebuilding. */
  const BACKFILL_BATCH: nat := 16
  const REBUILD_BATCH: nat := 64

  datatype Status = Active | Building | Retired

  datatype Choice = Choice(provider: string, model: string, dimensions: Option<nat>)

  datatype Index = Index(version: nat, choice: Choice, dimension: nat, status: Status)

  datatype Key = Key(index: nat, thought: nat, chunk: nat)

  datatype Entry = Entry(range: Option<Range>, vector: Vector)

  type Entries = map<Key, Entry>

  /** The thoughts, oldest first; the index rows by id; the entries of every index. */
  datatype State = State(order: seq<nat>, thoughts: map<nat, Content>, indexes: map<nat, Index>, entries: Entries)

  /** How a thought is split into pieces. */
  type Splitter = Content -> seq<Piece>

  /** What the indexes need of the splitter: a head, pieces numbered from it, and tags in the head only. */
  ghost predicate Splits(pieces: Splitter) {
    && (forall c :: |pieces(c)| >= 1 && forall i | 0 <= i < |pieces(c)| :: pieces(c)[i].chunk == i)
    && (forall c, d :: SameButTags(c, d) ==>
          |pieces(c)| == |pieces(d)| && forall i | 1 <= i < |pieces(c)| :: pieces(c)[i] == pieces(d)[i])
  }

  predicate SameButTags(c: Content, d: Content) {
    c.title == d.title && c.summary == d.summary && c.rawText == d.rawText
  }

  // --- Finding an index --------------------------------------------------------

  /** The user's index with this status, if any. */
  ghost function WithStatus(st: State, status: Status): (r: Option<nat>)
    ensures r.Some? ==> r.value in st.indexes && st.indexes[r.value].status == status
    ensures r.None? ==> forall i | i in st.indexes :: st.indexes[i].status != status
  {
    if i :| i in st.indexes && st.indexes[i].status == status then Some(i) else None
  }

  /** The highest version among these indexes, or 0. */
  ghost function LatestVersion(indexes: map<nat, Index>): (v: nat)
    ensures forall i | i in indexes :: indexes[i].version <= v
    ensures v == 0 || exists i :: i in indexes && indexes[i].version == v
    decreases |indexes|
  {
    if indexes == map[] then 0
    else
      var i :| i in indexes;
      var rest := indexes - {i};
      assert |rest| < |indexes| by { assert rest.Keys == indexes.Keys - {i}; }
      var v := LatestVersion(rest);
      assert forall j | j in indexes && j != i :: j in rest;
      if v < indexes[i].version then indexes[i].version else v
  }

  // --- Missing thoughts --------------------------------------------------------

  /** A thought lacks entries in an index when its head is not there; with no index every thought does. */
  predicate HasHead(entries: Entries, at: Option<nat>, thought: nat) {
    at.Some? && Key(at.value, thought, 0) in entries
  }

  /** The thoughts without entries in the index, oldest first. */
  function Missing(order: seq<nat>, entries: Entries, at: Option<nat>): seq<nat> {
    if order == [] then []
    else (if HasHead(entries, at, order[0]) then [] else [order[0]]) + Missing(order[1..], entries, at)
  }

  /** The thoughts taken from the front of ids, when `texts` texts are taken already. */
  function Within(pieces: Splitter, thoughts: map<nat, Content>, ids: seq<nat>, budget: int, texts: nat,
                  chosen: bool): seq<nat>
    requires forall i | 0 <= i < |ids| :: ids[i] in thoughts
  {
    if ids == [] then []
    else
      var count := |pieces(thoughts[ids[0]])|;
      if chosen && texts + count > budget then []
      else [ids[0]] + Within(pieces, thoughts, ids[1..], budget, texts + count, true)
  }

  function Limit(ids: seq<nat>, budget: int): seq<nat> {
    var limit := if budget < 1 then 1 else budget;
    if limit < |ids| then ids[..limit] else ids
  }

  predicate Known(thoughts: map<nat, Content>, ids: seq<nat>) {
    forall i | 0 <= i < |ids| :: ids[i] in thoughts
  }

  lemma {:induction false} MissingMeaning(order: seq<nat>, entries: Entries, at: Option<nat>)
    ensures forall t :: t in Missing(order, entries, at) <==> t in order && !HasHead(entries, at, t)
    ensures |Missing(order, entries, at)| <= |order|
  {
    if order != [] {
      MissingMeaning(order[1..], entries, at);
      assert order == [order[0]] + order[1..];
    }
  }

  /** The thoughts one call fills in: the oldest missing ones, within the text budget. */
  function Batch(pieces: Splitter, st: State, at: Option<nat>, budget: int): seq<nat>
    requires Known(st.thoughts, st.order)
  {
    MissingKnown(st.thoughts, st.order, st.entries, at);
    Within(pieces, st.thoughts, Limit(Missing(st.order, st.entries, at), budget), budget, 0, false)
  }

  lemma MissingKnown(thoughts: map<nat, Content>, order: seq<nat>, entries: Entries, at: Option<nat>)
    requires Known(thoughts, order)
    ensures Known(thoughts, Missing(order, entries, at))
  {
    MissingMeaning(order, entries, at);
    var missing := Missing(order, entries, at);
    forall i | 0 <= i < |missing|
      ensures missing[i] in thoughts
    {
      assert missing[i] in missing;
    }
  }

  // --- Entries -----------------------------------------------------------------

  /** A thought, and the pieces of it to embed. */
  datatype Item = Item(thought: nat, pieces: seq<Piece>)

  function EntryFor(index: Index, piece: Piece): Entry {
    Entry(piece.range, Vector(index.choice.model, piece.text, index.dimension))
  }

  predicate Writes(at: nat, item: Item, k: Key) {
    k.index == at && k.thought == item.thought && k.chunk < |item.pieces|
  }

  function KeysOf(at: nat, item: Item): set<Key> {
    set chunk: nat | chunk < |item.pieces| :: Key(at, item.thought, chunk)
  }

  /** The entries once an item's pieces are written in an index, over the same chunks' old ones. */
  function Put(entries: Entries, at: nat, index: Index, item: Item): Entries {
    map k | k in entries.Keys + KeysOf(at, item) ::
      if Writes(at, item, k) then EntryFor(index, item.pieces[k.chunk]) else entries[k]
  }

  function PutAll(entries: Entries, at: nat, index: Index, items: seq<Item>): Entries
    decreases |items|
  {
    if items == [] then entries else PutAll(Put(entries, at, index, items[0]), at, index, items[1..])
  }

  function ItemsOf(pieces: Splitter, thoughts: map<nat, Content>, ids: seq<nat>): seq<Item>
    requires Known(thoughts, ids)
  {
    seq(|ids|, i requires 0 <= i < |ids| => Item(ids[i], pieces(thoughts[ids[i]])))
  }

  // --- One embeddings call -----------------------------------------------------

  /** What the provider made of one call: nothing, or a vector of one length for every text. */
  datatype Answer = Refused | Answered(dimension: nat)

  datatype Embed = Embed(st: State, at: Option<nat>, ok: bool)

  /** A new index version, unless one with this status is there already. */
  ghost function CreateIndex(st: State, choice: Choice, dimension: nat, status: Status, newId: nat): (State, nat) {
    match WithStatus(st, status)
    case Some(existing) => (st, existing)
    case None =>
      (st.(indexes := st.indexes[newId := Index(LatestVersion(st.indexes) + 1, choice, dimension, status)]), newId)
  }

  /** The state after one call with a query, if any, and the items: their entries are in the index,
      which is made from the setting and the vectors' length if there is none. */
  ghost function EmbedForIndex(st: State, at: Option<nat>, items: seq<Item>, query: bool, answer: Answer,
                               setting: Choice, status: Status, newId: nat): Embed
    requires at.Some? ==> at.value in st.indexes
  {
    if !query && items == [] then Embed(st, at, true)
    else
      match answer
      case Refused => Embed(st, at, false)
      case Answered(dimension) =>
        var (made, i) := if at.Some? then (st, at.value) else CreateIndex(st, setting, dimension, status, newId);
        var index := made.indexes[i];
        var model := if at.Some? then index.choice.model else setting.model;
        if dimension != index.dimension || model != index.choice.model then Embed(made, Some(i), false)
        else Embed(made.(entries := PutAll(made.entries, i, index, items)), Some(i), true)
  }

  // --- The requests ------------------------------------------------------------

  /** The two calls a store or an update makes: one for the active index, one for the building one. */
  datatype Answers = Answers(active: Answer, building: Answer)

  function Without(ids: seq<nat>, thought: nat): seq<nat> {
    if ids == [] then []
    else (if ids[0] == thought then [] else [ids[0]]) + Without(ids[1..], thought)
  }

  lemma {:induction false} WithoutMeaning(ids: seq<nat>, thought: nat)
    ensures forall t :: t in Without(ids, thought) <==> t in ids && t != thought
    decreases |ids|
  {
    if ids != [] {
      WithoutMeaning(ids[1..], thought);
      assert ids == [ids[0]] + ids[1..];
    }
  }

  function Stored(st: State, thought: nat, c: Content): State {
    st.(order := st.order + [thought], thoughts := st.thoughts[thought := c])
  }

  /** The new or changed thought, and some missing ones of the active index along with it. */
  ghost function ActiveItems(pieces: Splitter, st: State, thought: nat, newPieces: seq<Piece>): seq<Item>
    requires Known(st.thoughts, st.order)
  {
    var active := WithStatus(st, Active);
    BackfillKnown(pieces, st, active, thought);
    [Item(thought, newPieces)] + ItemsOf(pieces, st.thoughts,
                                         Without(Batch(pieces, st, active, BACKFILL_BATCH), thought))
  }

  /** The second call of a store or an update, when an index is building. */
  ghost function BuildingCall(st: State, thought: nat, newPieces: seq<Piece>, answer: Answer, setting: Choice,
                              newId: nat): State {
    match WithStatus(st, Building)
    case None => st
    case Some(b) => EmbedForIndex(st, Some(b), [Item(thought, newPieces)], false, answer, setting, Active, newId).st
  }

  /** The state after both calls: what the first carries along depends on the active index alone. */
  ghost function IndexThought(pieces: Splitter, st: State, thought: nat, c: Content, add: bool, newPieces: seq<Piece>,
                              answers: Answers, setting: Choice, newId: nat): State
    requires Known(st.thoughts, st.order)
  {
    var items := ActiveItems(pieces, st, thought, newPieces);
    var stored := if add then Stored(st, thought, c) else st;
    var first := EmbedForIndex(stored, WithStatus(st, Active), items, false, answers.active, setting, Active, newId).st;
    BuildingCall(first, thought, newPieces, answers.building, setting, newId)
  }

  lemma {:induction false} WithinMeaning(pieces: Splitter, thoughts: map<nat, Content>, ids: seq<nat>, budget: int,
                                         texts: nat, chosen: bool)
    requires Known(thoughts, ids)
    ensures Within(pieces, thoughts, ids, budget, texts, chosen) <= ids
    decreases |ids|
  {
    if ids != [] {
      WithinMeaning(pieces, thoughts, ids[1..], budget, texts + |pieces(thoughts[ids[0]])|, true);
    }
  }

  /** A batch is the front of the missing thoughts. */
  lemma BatchIsPrefix(pieces: Splitter, st: State, at: Option<nat>, budget: int)
    requires Known(st.thoughts, st.order)
    ensures Batch(pieces, st, at, budget) <= Missing(st.order, st.entries, at)
    ensures Known(st.thoughts, Batch(pieces, st, at, budget))
  {
    var missing := Missing(st.order, st.entries, at);
    MissingKnown(st.thoughts, st.order, st.entries, at);
    WithinMeaning(pieces, st.thoughts, Limit(missing, budget), budget, 0, false);
    assert Limit(missing, budget) <= missing;
  }

  lemma BackfillKnown(pieces: Splitter, st: State, at: Option<nat>, thought: nat)
    requires Known(st.thoughts, st.order)
    ensures Known(st.thoughts, Without(Batch(pieces, st, at, BACKFILL_BATCH), thought))
  {
    var batch := Batch(pieces, st, at, BACKFILL_BATCH);
    BatchIsPrefix(pieces, st, at, BACKFILL_BATCH);
    WithoutMeaning(batch, thought);
    var rest := Without(batch, thought);
    forall i | 0 <= i < |rest|
      ensures rest[i] in st.thoughts
    {
      assert rest[i] in rest;
    }
  }

  /** The entries of one thought in indexes that are not retired: all of them, or only its heads. */
  predicate Stale(indexes: map<nat, Index>, thought: nat, headOnly: bool, k: Key) {
    && k.thought == thought
    && k.index in indexes && indexes[k.index].status != Retired
    && (headOnly ==> k.chunk == 0)
  }

  function WithoutStale(st: State, thought: nat, headOnly: bool): State {
    st.(entries := map k | k in st.entries && !Stale(st.indexes, thought, headOnly, k) :: st.entries[k])
  }

  /** What a request does. A crash is a request that never happens, or a rebuild that stops between two of its steps. */
  datatype Step =
    | Add(thought: nat, content: Content, answers: Answers, setting: Choice, newId: nat)
    | Update(thought: nat, content: Content, answers: Answers, setting: Choice, newId: nat)
    | Delete(thought: nat)
    | Search(answer: Answer, setting: Choice, newId: nat)
    | Fill(at: Option<nat>, answer: Answer, setting: Choice, newId: nat)
    | Swap(building: nat)
    | Drop(building: nat)

  ghost function Added(pieces: Splitter, st: State, thought: nat, c: Content, answers: Answers, setting: Choice,
                       newId: nat): State
    requires Known(st.thoughts, st.order)
  {
    IndexThought(pieces, st, thought, c, true, pieces(c), answers, setting, newId)
  }

  /** Old entries go first; then a changed title, summary or raw text is embedded
      whole, and changed tags with the head only. */
  ghost function Updated(pieces: Splitter, st: State, thought: nat, c: Content, answers: Answers, setting: Choice,
                         newId: nat): State
    requires Known(st.thoughts, st.order) && thought in st.thoughts
  {
    var tagsOnly := SameButTags(st.thoughts[thought], c);
    var changed := st.(thoughts := st.thoughts[thought := c]);
    if tagsOnly && c.tags == st.thoughts[thought].tags then changed
    else
      var newPieces := if tagsOnly && pieces(c) != [] then pieces(c)[..1] else pieces(c);
      IndexThought(pieces, WithoutStale(changed, thought, tagsOnly), thought, c, false, newPieces, answers,
                   setting, newId)
  }

  function Deleted(st: State, thought: nat): State {
    State(Without(st.order, thought), st.thoughts - {thought}, st.indexes,
          map k | k in st.entries && k.thought != thought :: st.entries[k])
  }

  /** A search carries missing texts of the active index along with its query. */
  ghost function Searched(pieces: Splitter, st: State, answer: Answer, setting: Choice, newId: nat): State
    requires Known(st.thoughts, st.order)
  {
    if st.thoughts == map[] then st
    else
      var active := WithStatus(st, Active);
      var batch := Batch(pieces, st, active, BACKFILL_BATCH);
      BatchIsPrefix(pieces, st, active, BACKFILL_BATCH);
      EmbedForIndex(st, active, ItemsOf(pieces, st.thoughts, batch), true, answer, setting, Active, newId).st
  }

  /** One batch of a rebuild, which makes the building index if there is none yet. */
  ghost function Filled(pieces: Splitter, st: State, at: Option<nat>, answer: Answer, setting: Choice,
                        newId: nat): Embed
    requires Known(st.thoughts, st.order) && (at.Some? ==> at.value in st.indexes)
  {
    var batch := Batch(pieces, st, at, REBUILD_BATCH);
    BatchIsPrefix(pieces, st, at, REBUILD_BATCH);
    EmbedForIndex(st, at, ItemsOf(pieces, st.thoughts, batch), false, answer, setting, Building, newId)
  }

  /** The building index becomes the active one, and the old one is retired without its entries. */
  ghost function Swapped(st: State, building: nat): State
    requires building in st.indexes
  {
    match WithStatus(st, Active)
    case None => st.(indexes := st.indexes[building := st.indexes[building].(status := Active)])
    case Some(last) =>
      var retired := st.indexes[last := st.indexes[last].(status := Retired)];
      st.(indexes := retired[building := st.indexes[building].(status := Active)],
          entries := map k | k in st.entries && k.index != last :: st.entries[k])
  }

  function Dropped(st: State, index: nat): State {
    st.(indexes := st.indexes - {index}, entries := map k | k in st.entries && k.index != index :: st.entries[k])
  }

  predicate IsBuilding(st: State, i: nat) {
    i in st.indexes && st.indexes[i].status == Building
  }

  /** New ids are new, a rebuild only fills, swaps and drops a building index, and
      it swaps one that no thought is missing from. */
  predicate Enabled(st: State, step: Step) {
    match step
    case Add(t, _, _, _, newId) => t !in st.thoughts && newId !in st.indexes
    case Update(t, _, _, _, newId) => t in st.thoughts && newId !in st.indexes
    case Delete(t) => t in st.thoughts
    case Search(_, _, newId) => newId !in st.indexes
    case Fill(at, _, _, newId) => newId !in st.indexes && (at.Some? ==> IsBuilding(st, at.value))
    case Swap(b) => IsBuilding(st, b) && Missing(st.order, st.entries, Some(b)) == []
    case Drop(b) => IsBuilding(st, b)
  }

  ghost function Next(pieces: Splitter, st: State, step: Step): State
    requires Known(st.thoughts, st.order) && Enabled(st, step)
  {
    match step
    case Add(t, c, answers, setting, newId) => Added(pieces, st, t, c, answers, setting, newId)
    case Update(t, c, answers, setting, newId) => Updated(pieces, st, t, c, answers, setting, newId)
    case Delete(t) => Deleted(st, t)
    case Search(answer, setting, newId) => Searched(pieces, st, answer, setting, newId)
    case Fill(at, answer, setting, newId) => Filled(pieces, st, at, answer, setting, newId).st
    case Swap(b) => Swapped(st, b)
    case Drop(b) => Dropped(st, b)
  }

  const NOTHING: State := State([], map[], map[], map[])
}
