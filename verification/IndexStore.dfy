/** The store's and the search's database operations on one user's thoughts and indexes. */
module IndexStore {
  import opened Wrappers
  import opened Chunking
  import opened Embeddings
  import opened IndexState
  import opened IndexInvariants
  import opened IndexRuns
  import opened Completeness
  import opened Calls

  predicate DistinctThoughts(items: seq<Item>) {
    forall m, n | 0 <= m < n < |items| :: items[m].thought != items[n].thought
  }

  /** Each piece has its place as its number. */
  predicate Numbered(items: seq<Item>) {
    forall n | 0 <= n < |items| :: forall c | 0 <= c < |items[n].pieces| :: items[n].pieces[c].chunk == c
  }

  /** The vectors are the model's for the items' texts, in the order of the texts. */
  predicate VectorsFor(index: Index, items: seq<Item>, vectors: seq<Vector>) {
    && |vectors| == |ItemTexts(items)|
    && forall p | 0 <= p < |vectors| :: vectors[p] == Vector(index.choice.model, ItemTexts(items)[p], index.dimension)
  }

  predicate WrittenByAny(at: nat, items: seq<Item>, k: Key) {
    exists n :: 0 <= n < |items| && Writes(at, items[n], k)
  }

  function Cleared(entries: Entries, at: nat, items: seq<Item>): Entries {
    map k | k in entries && !WrittenByAny(at, items, k) :: entries[k]
  }

  lemma {:induction false} PutAllLast(entries: Entries, at: nat, index: Index, items: seq<Item>, item: Item)
    ensures PutAll(entries, at, index, items + [item]) == Put(PutAll(entries, at, index, items), at, index, item)
    decreases |items|
  {
    if items == [] {
      assert [] + [item] == [item] && [item][1..] == [];
    } else {
      assert (items + [item])[1..] == items[1..] + [item];
      PutAllLast(Put(entries, at, index, items[0]), at, index, items[1..], item);
    }
  }

  lemma {:induction false} PutAllValue(a: Entries, b: Entries, at: nat, index: Index, items: seq<Item>, k: Key)
    requires WrittenByAny(at, items, k) || (k in a && k in b && a[k] == b[k])
    ensures k in PutAll(a, at, index, items) && k in PutAll(b, at, index, items)
    ensures PutAll(a, at, index, items)[k] == PutAll(b, at, index, items)[k]
    decreases |items|
  {
    if items != [] {
      PutLookup(a, at, index, items[0], k);
      PutLookup(b, at, index, items[0], k);
      if !Writes(at, items[0], k) && WrittenByAny(at, items, k) {
        var n :| 0 <= n < |items| && Writes(at, items[n], k);
        assert items[1..][n - 1] == items[n];
        assert WrittenByAny(at, items[1..], k);
      }
      PutAllValue(Put(a, at, index, items[0]), Put(b, at, index, items[0]), at, index, items[1..], k);
    }
  }

  /** Deleting first the entries that are then written changes nothing. */
  lemma ClearedFirst(entries: Entries, at: nat, index: Index, items: seq<Item>)
    ensures PutAll(Cleared(entries, at, items), at, index, items) == PutAll(entries, at, index, items)
  {
    var cleared := Cleared(entries, at, items);
    var a, b := PutAll(cleared, at, index, items), PutAll(entries, at, index, items);
    forall k: Key
      ensures (k in a <==> k in b) && (k in a ==> a[k] == b[k])
    {
      PutAllKeys(cleared, at, index, items, k);
      PutAllKeys(entries, at, index, items, k);
      if k in b {
        PutAllValue(cleared, entries, at, index, items, k);
      }
    }
  }

  lemma {:induction false} TextAt(items: seq<Item>, n: nat, c: nat)
    requires n < |items| && c < |items[n].pieces|
    ensures |ItemTexts(items[..n])| + c < |ItemTexts(items)|
    ensures ItemTexts(items)[|ItemTexts(items[..n])| + c] == items[n].pieces[c].text
    decreases n
  {
    if n > 0 {
      TextAt(items[1..], n - 1, c);
      assert items[..n][1..] == items[1..][..n - 1];
    }
  }

  lemma {:induction false} TextsOfOneMore(items: seq<Item>, n: nat)
    requires n < |items|
    ensures |ItemTexts(items[..n + 1])| == |ItemTexts(items[..n])| + |items[n].pieces|
    decreases n
  {
    if n > 0 {
      TextsOfOneMore(items[1..], n - 1);
      assert items[..n][1..] == items[1..][..n - 1] && items[..n + 1][1..] == items[1..][..n];
    } else {
      assert items[..1][1..] == [];
    }
  }

  lemma PutOneMorePiece(entries: Entries, at: nat, index: Index, t: nat, pieces: seq<Piece>, c: nat)
    requires c < |pieces|
    ensures Put(entries, at, index, Item(t, pieces[..c]))[Key(at, t, c) := EntryFor(index, pieces[c])] ==
            Put(entries, at, index, Item(t, pieces[..c + 1]))
  {
    var before := Put(entries, at, index, Item(t, pieces[..c]));
    var after := Put(entries, at, index, Item(t, pieces[..c + 1]));
    forall k: Key
      ensures k in after <==> k in before || k == Key(at, t, c)
      ensures k in after ==> after[k] == before[Key(at, t, c) := EntryFor(index, pieces[c])][k]
    {
      PutLookup(entries, at, index, Item(t, pieces[..c]), k);
      PutLookup(entries, at, index, Item(t, pieces[..c + 1]), k);
    }
  }

  /** The row about to be added is not there: the table's unique constraint holds. */
  lemma RowIsNew(entries: Entries, at: nat, index: Index, items: seq<Item>, n: nat, c: nat)
    requires n < |items| && c < |items[n].pieces| && DistinctThoughts(items)
    ensures Key(at, items[n].thought, c) !in
            Put(PutAll(Cleared(entries, at, items), at, index, items[..n]), at, index,
                Item(items[n].thought, items[n].pieces[..c]))
  {
    var k := Key(at, items[n].thought, c);
    assert Writes(at, items[n], k);
    PutLookup(PutAll(Cleared(entries, at, items), at, index, items[..n]), at, index,
              Item(items[n].thought, items[n].pieces[..c]), k);
    PutAllKeys(Cleared(entries, at, items), at, index, items[..n], k);
  }

  datatype NewThought = NewThought(id: nat, content: Content)

  /** One call for the query, if any, and the items' texts: the query's vector is
      split off the front, and the rest are the items'. */
  method Ask(provider: Provider, model: string, query: Option<Query>, items: seq<Item>)
    returns (ok: bool, dimension: nat, queryVector: Option<Vector>, vectors: seq<Vector>, ghost answer: Answer)
    requires HonestProvider(provider) && (query.Some? || ItemTexts(items) != [])
    ensures answer == if ok then Answered(dimension) else Refused
    ensures answer == AnswerTo(provider, model, CallTexts(query, model, items))
    ensures ok ==>
              queryVector ==
              (match query case None => None case Some(text) => Some(Vector(model, text(model), dimension)))
    ensures ok ==>
              && |vectors| == |ItemTexts(items)|
              && forall p | 0 <= p < |vectors| :: vectors[p] == Vector(model, ItemTexts(items)[p], dimension)
  {
    var extra := if query.Some? then [query.value(model)] else [];
    var texts := extra + ItemTexts(items);
    var result := EmbedTexts(provider, model, texts);
    EmbeddedAligned(provider, model, texts);
    answer := AnswerOf(result);
    if result.Err? {
      return false, 0, None, [], answer;
    }
    ok, dimension, vectors := true, result.value[0].dimension, result.value[|extra|..];
    queryVector := if query.Some? then Some(result.value[0]) else None;
  }

  function WithFirst(st: State, addFirst: Option<NewThought>): State {
    match addFirst case None => st case Some(t) => Stored(st, t.id, t.content)
  }

  ghost function TargetOf(st: State, at: Option<nat>, setting: Choice, dimension: nat, status: Status,
                          newId: nat): (State, nat) {
    if at.Some? then (st, at.value) else IndexState.CreateIndex(st, setting, dimension, status, newId)
  }

  /** Storing the thought before or after the index is made is the same. */
  lemma StoredFirst(pieces: Splitter, st: State, addFirst: Option<NewThought>, at: Option<nat>, setting: Choice,
                    dimension: nat, status: Status, newId: nat)
    requires Inv(pieces, st) && status != Retired
    ensures
      var (made, i) := TargetOf(st, at, setting, dimension, status, newId);
      TargetOf(WithFirst(st, addFirst), at, setting, dimension, status, newId) == (WithFirst(made, addFirst), i)
  {
  }

  lemma OkIfWrites(st: State, at: Option<nat>, items: seq<Item>, query: bool, answer: Answer, setting: Choice,
                   status: Status, newId: nat)
    requires if at.Some? then at.value in st.indexes else newId !in st.indexes && WithStatus(st, status) == None
    requires query || items != []
    ensures IndexState.EmbedForIndex(st, at, items, query, answer, setting, status, newId).ok <==>
              CallWrites(st, at, answer)
  {
  }

  lemma FirstKeepsRows(st: State, addFirst: Option<NewThought>, status: Status)
    ensures WithFirst(st, addFirst).indexes == st.indexes
    ensures WithStatus(st, status) == None ==> WithStatus(WithFirst(st, addFirst), status) == None
  {
  }

  /** A store whose call fails adds the thought afterwards, to the same effect. */
  lemma FailedThenStored(pieces: Splitter, st: State, addFirst: Option<NewThought>, at: Option<nat>, items: seq<Item>,
                         answer: Answer, setting: Choice, newId: nat)
    requires Inv(pieces, st) && items != []
    requires if at.Some? then at.value in st.indexes else newId !in st.indexes
    requires !IndexState.EmbedForIndex(st, at, items, false, answer, setting, Active, newId).ok
    ensures
      var e := IndexState.EmbedForIndex(st, at, items, false, answer, setting, Active, newId);
      IndexState.EmbedForIndex(WithFirst(st, addFirst), at, items, false, answer, setting, Active, newId).st ==
          WithFirst(e.st, addFirst)
  {
    if answer.Answered? {
      StoredFirst(pieces, st, addFirst, at, setting, answer.dimension, Active, newId);
    }
  }

  lemma ActiveCallKeeps(pieces: Splitter, st: State, t: nat, c: Content, add: bool, newPieces: seq<Piece>,
                        answer: Answer, setting: Choice, newId: nat)
    requires Inv(pieces, st) && newId !in st.indexes && newPieces <= pieces(c)
    requires if add then t !in st.thoughts else t in st.thoughts && st.thoughts[t] == c
    ensures
      var stored := if add then Stored(st, t, c) else st;
      var items := ActiveItems(pieces, st, t, newPieces);
      var after := IndexState.EmbedForIndex(stored, WithStatus(st, Active), items, false, answer, setting,
                                            Active, newId).st;
      Inv(pieces, after) && t in after.thoughts && after.thoughts[t] == c
  {
    var stored := if add then Stored(st, t, c) else st;
    if add {
      StoredKeeps(pieces, st, t, c);
    }
    ActiveItemsCurrent(pieces, st, t, newPieces, stored.thoughts);
    EmbedKeeps(pieces, stored, WithStatus(st, Active), ActiveItems(pieces, st, t, newPieces), false, answer, setting,
               Active, newId);
  }

  lemma SameBuildingAfter(pieces: Splitter, st: State, t: nat, c: Content, add: bool, newPieces: seq<Piece>,
                          answers: Answers, setting: Choice, newId: nat, mid: State)
    requires Inv(pieces, st) && newId !in st.indexes && newPieces <= pieces(c)
    requires if add then t !in st.thoughts else t in st.thoughts && st.thoughts[t] == c
    requires
      var stored := if add then Stored(st, t, c) else st;
      mid == IndexState.EmbedForIndex(stored, WithStatus(st, Active), ActiveItems(pieces, st, t, newPieces), false,
                                      answers.active, setting, Active, newId).st
    ensures SameBuilding(st, mid)
  {
    var stored := if add then Stored(st, t, c) else st;
    if add {
      StoredKeeps(pieces, st, t, c);
    }
    SameRowsSameStatuses(st, stored);
    var items, first := AfterActiveCall(pieces, st, stored, t, newPieces, answers, setting, newId);
  }

  lemma SameBuildingCall(provider: Provider, st: State, mid: State, t: nat, newPieces: seq<Piece>, answer: Answer,
                         setting: Choice)
    requires SameBuilding(st, mid)
    ensures
      var b := WithStatus(st, Building);
      b.Some? ==>
        && (CallWrites(mid, b, answer) <==> CallWrites(st, b, answer))
        && (CallWorks(provider, mid, b, setting, None, [Item(t, newPieces)]) <==>
              CallWorks(provider, st, b, setting, None, [Item(t, newPieces)]))
  {
    var b := WithStatus(st, Building);
    if b.Some? {
      assert CallModel(mid, b, setting) == CallModel(st, b, setting);
      assert mid.indexes[b.value] == st.indexes[b.value];
    }
  }

  predicate DistinctIds(ids: seq<nat>) {
    forall i, j | 0 <= i < j < |ids| :: ids[i] != ids[j]
  }

  lemma {:induction false} MissingDistinct(order: seq<nat>, entries: Entries, at: Option<nat>)
    requires DistinctIds(order)
    ensures DistinctIds(Missing(order, entries, at))
    decreases |order|
  {
    if order != [] {
      MissingDistinct(order[1..], entries, at);
      MissingMeaning(order[1..], entries, at);
      var rest := Missing(order[1..], entries, at);
      forall j | 0 <= j < |rest|
        ensures rest[j] != order[0]
      {
        assert rest[j] in rest;
      }
    }
  }

  lemma BatchDistinct(pieces: Splitter, st: State, at: Option<nat>, budget: int)
    requires Sane(st)
    ensures DistinctIds(Batch(pieces, st, at, budget))
  {
    BatchIsPrefix(pieces, st, at, budget);
    MissingDistinct(st.order, st.entries, at);
  }

  /** Items to embed: of different thoughts, with numbered pieces, and with some text. */
  predicate Good(items: seq<Item>) {
    DistinctThoughts(items) && Numbered(items) && (items != [] ==> ItemTexts(items) != [])
  }

  lemma ItemsGood(pieces: Splitter, thoughts: map<nat, Content>, ids: seq<nat>)
    requires Splits(pieces) && Known(thoughts, ids) && DistinctIds(ids)
    ensures Good(ItemsOf(pieces, thoughts, ids))
  {
    var items := ItemsOf(pieces, thoughts, ids);
    if items != [] {
      assert |pieces(thoughts[ids[0]])| >= 1;
      TextAt(items, 0, 0);
    }
  }

  lemma OneItemGood(pieces: Splitter, t: nat, c: Content, newPieces: seq<Piece>)
    requires Splits(pieces) && newPieces != [] && newPieces <= pieces(c)
    ensures Good([Item(t, newPieces)])
  {
    TextAt([Item(t, newPieces)], 0, 0);
  }

  lemma ActiveItemsGood(pieces: Splitter, st: State, t: nat, c: Content, newPieces: seq<Piece>)
    requires Splits(pieces) && Sane(st) && newPieces != [] && newPieces <= pieces(c)
    ensures Good(ActiveItems(pieces, st, t, newPieces))
  {
    var active := WithStatus(st, Active);
    var batch := Batch(pieces, st, active, BACKFILL_BATCH);
    BatchDistinct(pieces, st, active, BACKFILL_BATCH);
    BackfillKnown(pieces, st, active, t);
    WithoutMeaning(batch, t);
    WithoutKeepsOrder(batch, t);
    var backfill := Without(batch, t);
    ItemsGood(pieces, st.thoughts, backfill);
    var rest := ItemsOf(pieces, st.thoughts, backfill);
    forall n | 0 <= n < |rest|
      ensures rest[n].thought != t
    {
      assert backfill[n] in backfill;
    }
    assert forall n | 0 <= n < |newPieces| :: newPieces[n] == pieces(c)[n];
    OneMoreGood(Item(t, newPieces), rest);
  }

  lemma OneMoreGood(item: Item, rest: seq<Item>)
    requires Good(rest) && item.pieces != [] && forall n | 0 <= n < |rest| :: rest[n].thought != item.thought
    requires forall c | 0 <= c < |item.pieces| :: item.pieces[c].chunk == c
    ensures Good([item] + rest)
  {
    TextAt([item] + rest, 0, 0);
  }

  lemma ActiveTarget(st: State, active: Option<nat>, items: seq<Item>, answer: Answer, setting: Choice, newId: nat)
    requires active == WithStatus(st, Active) && newId !in st.indexes
    requires OneEach(IndexState.EmbedForIndex(st, active, items, true, answer, setting, Active, newId).st.indexes)
    ensures
      var e := IndexState.EmbedForIndex(st, active, items, true, answer, setting, Active, newId);
      e.ok ==> e.at.Some? && WithStatus(e.st, Active) == e.at
  {
    var e := IndexState.EmbedForIndex(st, active, items, true, answer, setting, Active, newId);
    assert e.ok ==> e.at.Some? && e.at.value in e.st.indexes && e.st.indexes[e.at.value].status == Active;
  }

  lemma EmbedKeepsThoughts(st: State, at: Option<nat>, items: seq<Item>, query: bool, answer: Answer, setting: Choice,
                           status: Status, newId: nat)
    requires if at.Some? then at.value in st.indexes else newId !in st.indexes
    ensures
      var after := IndexState.EmbedForIndex(st, at, items, query, answer, setting, status, newId).st;
      after.order == st.order && after.thoughts == st.thoughts
  {
  }

  lemma IndexThoughtKeepsThoughts(pieces: Splitter, st: State, t: nat, c: Content, newPieces: seq<Piece>,
                                  answers: Answers, setting: Choice, newId: nat)
    requires Sane(st) && newId !in st.indexes
    ensures
      var after := IndexState.IndexThought(pieces, st, t, c, false, newPieces, answers, setting, newId);
      after.order == st.order && after.thoughts == st.thoughts
  {
    var items := ActiveItems(pieces, st, t, newPieces);
    EmbedKeepsThoughts(st, WithStatus(st, Active), items, false, answers.active, setting, Active, newId);
    var first := IndexState.EmbedForIndex(st, WithStatus(st, Active), items, false, answers.active, setting, Active,
                                          newId).st;
    var b := WithStatus(first, Building);
    if b.Some? {
      EmbedKeepsThoughts(first, b, [Item(t, newPieces)], false, answers.building, setting, Active, newId);
    }
  }

  lemma AddedStoresOnce(pieces: Splitter, st: State, t: nat, c: Content, answers: Answers, setting: Choice, newId: nat)
    requires Sane(st) && newId !in st.indexes
    ensures
      var after := Added(pieces, st, t, c, answers, setting, newId);
      after.order == st.order + [t] && after.thoughts == st.thoughts[t := c]
  {
    var items := ActiveItems(pieces, st, t, pieces(c));
    EmbedKeepsThoughts(Stored(st, t, c), WithStatus(st, Active), items, false, answers.active, setting, Active, newId);
  }

  lemma IsLatest(indexes: map<nat, Index>, v: nat)
    requires forall j | j in indexes :: indexes[j].version <= v
    requires v == 0 || exists j :: j in indexes && indexes[j].version == v
    ensures v == LatestVersion(indexes)
  {
  }

  lemma SameContent(pieces: Splitter, st: State, t: nat, c: Content)
    requires t in st.thoughts && SameButTags(st.thoughts[t], c) && c.tags == st.thoughts[t].tags
    ensures st.(thoughts := st.thoughts[t := c]) == st
  {
    assert c == st.thoughts[t];
  }

  class SearchStore {
    const pieces: Splitter
    var order: seq<nat>
    var thoughts: map<nat, Content>
    var indexes: map<nat, Index>
    var entries: Entries

    ghost function Model(): State
      reads this
    {
      State(order, thoughts, indexes, entries)
    }

    ghost predicate Valid()
      reads this
    {
      Splits(pieces) && Inv(pieces, Model())
    }

    constructor (pieces: Splitter)
      requires Splits(pieces)
      ensures Valid() && Model() == NOTHING && this.pieces == pieces
    {
      this.pieces := pieces;
      order, thoughts, indexes, entries := [], map[], map[], map[];
      new;
      NothingIsRight(pieces);
    }

    method IndexWithStatus(status: Status) returns (r: Option<nat>)
      requires Valid() && status != Retired
      ensures r == WithStatus(Model(), status)
    {
      if i :| i in indexes && indexes[i].status == status {
        r := Some(i);
      } else {
        r := None;
      }
    }

    /** The next batch for the index. */
    method MissingThoughts(at: Option<nat>, budget: int) returns (chosen: seq<nat>)
      requires Valid()
      ensures chosen == Batch(pieces, Model(), at, budget)
    {
      MissingKnown(thoughts, order, entries, at);
      chosen := TakeWithin(Limit(Missing(order, entries, at), budget), budget);
    }

    method TakeWithin(rows: seq<nat>, budget: int) returns (chosen: seq<nat>)
      requires Known(thoughts, rows)
      ensures chosen == Within(pieces, thoughts, rows, budget, 0, false)
    {
      var texts: nat := 0;
      chosen := [];
      assert rows[0..] == rows;
      for n := 0 to |rows|
        invariant chosen == rows[..n]
        invariant chosen + Within(pieces, thoughts, rows[n..], budget, texts, n > 0) ==
                  Within(pieces, thoughts, rows, budget, 0, false)
      {
        var count := |pieces(thoughts[rows[n]])|;
        WithinStep(pieces, thoughts, rows, n, budget, texts, chosen);
        if chosen != [] && texts + count > budget {
          return;
        }
        chosen := chosen + [rows[n]];
        texts := texts + count;
      }
      Assoc(chosen, [], []);
    }

    method CountMissing(i: nat) returns (n: nat)
      ensures n == |Missing(order, entries, Some(i))|
    {
      n := 0;
      for m := 0 to |order|
        invariant n + |Missing(order[m..], entries, Some(i))| == |Missing(order, entries, Some(i))|
      {
        assert order[m..][1..] == order[m + 1..];
        if !HasHead(entries, Some(i), order[m]) {
          n := n + 1;
        }
      }
    }

    /** Adds a row with the next version, unless a row has this status. */
    method CreateIndex(choice: Choice, dimension: nat, status: Status, newId: nat) returns (i: nat)
      requires Valid() && status != Retired && newId !in indexes
      modifies this`indexes
      ensures (Model(), i) == IndexState.CreateIndex(old(Model()), choice, dimension, status, newId)
      ensures if exists j :: j in old(indexes) && old(indexes)[j].status == status then
                i in old(indexes) && old(indexes)[i].status == status && indexes == old(indexes)
              else
                && i == newId && i in indexes && indexes == old(indexes)[i := indexes[i]]
                && indexes[i] == Index(indexes[i].version, choice, dimension, status)
                && (forall j | j in old(indexes) :: old(indexes)[j].version < indexes[i].version)
                && (indexes[i].version == 1
                    || exists j :: j in old(indexes) && old(indexes)[j].version == indexes[i].version - 1)
    {
      var existing := IndexWithStatus(status);
      if existing.Some? {
        return existing.value;
      }
      var latest := LatestRow();
      indexes := indexes[newId := Index(latest + 1, choice, dimension, status)];
      i := newId;
    }

    method LatestRow() returns (latest: nat)
      ensures latest == LatestVersion(indexes)
    {
      latest := 0;
      var left := indexes.Keys;
      while left != {}
        invariant left <= indexes.Keys
        invariant forall j | j in indexes && j !in left :: indexes[j].version <= latest
        invariant latest == 0 || exists j :: j in indexes && indexes[j].version == latest
        decreases left
      {
        var j :| j in left;
        left := left - {j};
        latest := if latest < indexes[j].version then indexes[j].version else latest;
      }
      IsLatest(indexes, latest);
    }

    /** Puts each piece in the index with its own vector, by position, over what its chunk had. */
    method WriteEntries(i: nat, items: seq<Item>, vectors: seq<Vector>)
      requires i in indexes && DistinctThoughts(items) && Numbered(items) && VectorsFor(indexes[i], items, vectors)
      modifies this`entries
      ensures entries == PutAll(old(entries), i, indexes[i], items)
    {
      ghost var index := indexes[i];
      for n := 0 to |items|
        invariant entries == Cleared(old(entries), i, items[..n])
      {
        entries := map k | k in entries && !Writes(i, items[n], k) :: entries[k];
        ClearOneMore(old(entries), i, items, n);
      }
      assert items[..|items|] == items;
      ghost var cleared := Cleared(old(entries), i, items);
      var position := 0;
      for n := 0 to |items|
        invariant entries == PutAll(cleared, i, index, items[..n])
        invariant position == |ItemTexts(items[..n])|
      {
        position := WriteItem(i, items, n, vectors, position, old(entries));
        assert items[..n + 1] == items[..n] + [items[n]];
        PutAllLast(cleared, i, index, items[..n], items[n]);
        TextsOfOneMore(items, n);
      }
      ClearedFirst(old(entries), i, index, items);
    }

    method WriteItem(i: nat, items: seq<Item>, n: nat, vectors: seq<Vector>, from: nat, ghost before: Entries)
        returns (position: nat)
      requires i in indexes && n < |items| && DistinctThoughts(items) && Numbered(items)
      requires VectorsFor(indexes[i], items, vectors)
      requires from == |ItemTexts(items[..n])|
      requires entries == PutAll(Cleared(before, i, items), i, indexes[i], items[..n])
      modifies this`entries
      ensures entries == Put(old(entries), i, indexes[i], items[n])
      ensures position == from + |items[n].pieces|
    {
      var t, ps := items[n].thought, items[n].pieces;
      position := from;
      EmptyPut(entries, i, indexes[i], t);
      for c := 0 to |ps|
        invariant entries == Put(old(entries), i, indexes[i], Item(t, ps[..c]))
        invariant position == from + c
      {
        var key := Key(i, t, ps[c].chunk);
        RowIsNew(before, i, indexes[i], items, n, c);
        assert key !in entries;
        TextAt(items, n, c);
        PutOneMorePiece(old(entries), i, indexes[i], t, ps, c);
        entries := entries[key := Entry(ps[c].range, vectors[position])];
        position := position + 1;
      }
      assert Item(t, ps[..|ps|]) == items[n];
    }

    /** One call for the query and the items' pieces, and the entries it gives. A failed
        call, or vectors of the wrong length, give none. `addFirst` is
        the thought being stored: it goes in before its entries, and only then. */
    method EmbedItems(at: Option<nat>, items: seq<Item>, query: Option<Query>, provider: Provider, setting: Choice,
                         status: Status, addFirst: Option<NewThought>, newId: nat)
      returns (ok: bool, index: Option<nat>, queryVector: Option<Vector>, ghost answer: Answer)
      requires Valid() && HonestProvider(provider) && status != Retired
      requires if at.Some? then at.value in indexes else newId !in indexes
      requires DistinctThoughts(items) && Numbered(items)
      requires (addFirst.Some? ==> items != []) && (items != [] ==> ItemTexts(items) != [])
      modifies this
      ensures
        var st := if ok then WithFirst(old(Model()), addFirst) else old(Model());
        IndexState.EmbedForIndex(st, at, items, query.Some?, answer, setting, status, newId) ==
            Embed(Model(), index, ok)
      ensures ok && query.Some? ==>
                && index.Some?
                && queryVector ==
                   Some(Vector(indexes[index.value].choice.model, query.value(indexes[index.value].choice.model),
                               indexes[index.value].dimension))
      ensures query.Some? || items != [] ==>
                answer == AnswerTo(provider, CallModel(old(Model()), at, setting),
                                   CallTexts(query, CallModel(old(Model()), at, setting), items))
    {
      answer := Refused;
      if query.None? && items == [] {
        return true, at, None, answer;
      }
      var model := if at.Some? then indexes[at.value].choice.model else setting.model;
      var dimension, vectors;
      ok, dimension, queryVector, vectors, answer := Ask(provider, model, query, items);
      if !ok {
        return false, at, None, answer;
      }
      ok, index := Place(at, items, model, dimension, vectors, setting, status, addFirst, newId);
    }

    /** Writes the vectors of a call, if they fit the index, which is made if there is none. */
    method Place(at: Option<nat>, items: seq<Item>, model: string, dimension: nat, vectors: seq<Vector>,
                 setting: Choice,
                 status: Status, addFirst: Option<NewThought>, newId: nat)
      returns (ok: bool, index: Option<nat>)
      requires Valid() && status != Retired
      requires if at.Some? then at.value in indexes else newId !in indexes
      requires model == CallModel(Model(), at, setting)
      requires DistinctThoughts(items) && Numbered(items) && |vectors| == |ItemTexts(items)|
      requires forall p | 0 <= p < |vectors| :: vectors[p] == Vector(model, ItemTexts(items)[p], dimension)
      modifies this
      ensures
        var st := if ok then WithFirst(old(Model()), addFirst) else old(Model());
        forall query: bool | query || items != [] ::
          IndexState.EmbedForIndex(st, at, items, query, Answered(dimension), setting, status, newId) ==
              Embed(Model(), index, ok)
      ensures ok ==>
                index.Some? && index.value in indexes
                && indexes[index.value].choice.model == model && indexes[index.value].dimension == dimension
    {
      var i := Target(at, setting, dimension, status, newId);
      index := Some(i);
      if dimension != indexes[i].dimension || model != indexes[i].choice.model {
        return false, index;
      }
      StoredFirst(pieces, old(Model()), addFirst, at, setting, dimension, status, newId);
      AddFirst(addFirst);
      WriteEntries(i, items, vectors);
      ok := true;
    }

    /** The same, and when it works. */
    method EmbedForIndex(at: Option<nat>, items: seq<Item>, query: Option<Query>, provider: Provider, setting: Choice,
                         status: Status, addFirst: Option<NewThought>, newId: nat)
      returns (ok: bool, index: Option<nat>, queryVector: Option<Vector>, ghost answer: Answer)
      requires Valid() && HonestProvider(provider) && status != Retired
      requires if at.Some? then at.value in indexes else newId !in indexes
      requires DistinctThoughts(items) && Numbered(items)
      requires (addFirst.Some? ==> items != []) && (items != [] ==> ItemTexts(items) != [])
      modifies this
      ensures
        var st := if ok then WithFirst(old(Model()), addFirst) else old(Model());
        IndexState.EmbedForIndex(st, at, items, query.Some?, answer, setting, status, newId) ==
            Embed(Model(), index, ok)
      ensures ok && query.Some? ==>
                && index.Some?
                && queryVector ==
                   Some(Vector(indexes[index.value].choice.model, query.value(indexes[index.value].choice.model),
                               indexes[index.value].dimension))
      ensures
        (at.Some? || old(WithStatus(Model(), status)) == None) && (query.Some? || items != []) ==>
          && (ok <==> CallWorks(provider, old(Model()), at, setting, query, items))
          && (CallWrites(old(Model()), at, answer) <==> ok)
    {
      ghost var st := Model();
      ok, index, queryVector, answer := EmbedItems(at, items, query, provider, setting, status, addFirst, newId);
      if (at.Some? || WithStatus(st, status) == None) && (query.Some? || items != []) {
        WritesIfWorks(provider, st, at, setting, query, items);
        FirstKeepsRows(st, addFirst, status);
        OkIfWrites(if ok then WithFirst(st, addFirst) else st, at, items, query.Some?, answer, setting, status, newId);
      }
    }

    method Target(at: Option<nat>, setting: Choice, dimension: nat, status: Status, newId: nat) returns (i: nat)
      requires Valid() && status != Retired && if at.Some? then at.value in indexes else newId !in indexes
      modifies this`indexes
      ensures (Model(), i) == TargetOf(old(Model()), at, setting, dimension, status, newId)
    {
      if at.Some? {
        return at.value;
      }
      i := CreateIndex(setting, dimension, status, newId);
    }

    method AddFirst(addFirst: Option<NewThought>)
      modifies this`order, this`thoughts
      ensures Model() == WithFirst(old(Model()), addFirst)
    {
      if addFirst.Some? {
        order := order + [addFirst.value.id];
        thoughts := thoughts[addFirst.value.id := addFirst.value.content];
      }
    }

    /** Makes both calls of a store or an update. The thought is stored whatever comes of them. */
    method IndexThought(t: nat, c: Content, add: bool, newPieces: seq<Piece>, provider: Provider,
                        setting: Choice, newId: nat)
      returns (embedded: bool, ghost answers: Answers)
      requires Valid() && HonestProvider(provider) && newId !in indexes
      requires newPieces != [] && newPieces <= pieces(c)
      requires if add then t !in thoughts else t in thoughts && thoughts[t] == c
      modifies this
      ensures Model() == IndexState.IndexThought(pieces, old(Model()), t, c, add, newPieces, answers, setting, newId)
      ensures Valid() && PiecesStored(pieces, provider, old(Model()), setting, newId, t, newPieces, embedded, Model())
    {
      ghost var st := Model();
      var active := IndexWithStatus(Active);
      var batch := MissingThoughts(active, BACKFILL_BATCH);
      BackfillKnown(pieces, st, active, t);
      var items := [Item(t, newPieces)] + ItemsOf(pieces, thoughts, Without(batch, t));
      ActiveItemsGood(pieces, st, t, c, newPieces);
      var first := if add then Some(NewThought(t, c)) else None;
      ghost var a1, a2;
      var index, query;
      embedded, index, query, a1 := EmbedForIndex(active, items, None, provider, setting, Active, first, newId);
      if !embedded {
        FailedThenStored(pieces, st, first, active, items, a1, setting, newId);
        AddFirst(first);
      }
      ActiveCallKeeps(pieces, st, t, c, add, newPieces, a1, setting, newId);
      ghost var mid := Model();
      a2 := BuildingIndexToo(t, newPieces, provider, setting, newId);
      answers := Answers(a1, a2);
      SameBuildingAfter(pieces, st, t, c, add, newPieces, answers, setting, newId, mid);
      SameBuildingCall(provider, st, mid, t, newPieces, a2, setting);
      StoreFills(pieces, st, t, c, add, newPieces, answers, setting, newId);
      IndexThoughtKeeps(pieces, st, t, c, add, newPieces, answers, setting, newId);
    }

    /** The second of the two calls, if an index is building. */
    method BuildingIndexToo(t: nat, newPieces: seq<Piece>, provider: Provider, setting: Choice, newId: nat)
        returns (ghost answer: Answer)
      requires Valid() && HonestProvider(provider) && t in thoughts && newPieces != []
      requires newPieces <= pieces(thoughts[t])
      modifies this
      ensures Model() == BuildingCall(old(Model()), t, newPieces, answer, setting, newId)
      ensures
        var building := old(WithStatus(Model(), Building));
        building.Some? ==>
          (CallWrites(old(Model()), building, answer) <==>
             CallWorks(provider, old(Model()), building, setting, None, [Item(t, newPieces)]))
    {
      answer := Refused;
      var building := IndexWithStatus(Building);
      if building.Some? {
        OneItemGood(pieces, t, thoughts[t], newPieces);
        var ok, index, query;
        ok, index, query, answer := EmbedForIndex(building, [Item(t, newPieces)], None, provider, setting, Active,
                                                  None, newId);
      }
    }

    /** Add a thought and index it. It is stored exactly once, whatever its calls do. */
    method AddThought(t: nat, c: Content, provider: Provider, setting: Choice, newId: nat)
        returns (embedded: bool, ghost answers: Answers)
      requires Valid() && HonestProvider(provider) && t !in thoughts && newId !in indexes
      modifies this
      ensures Valid() && Model() == Next(pieces, old(Model()), Add(t, c, answers, setting, newId))
      ensures order == old(order) + [t] && thoughts == old(thoughts)[t := c]
      ensures PiecesStored(pieces, provider, old(Model()), setting, newId, t, pieces(c), embedded, Model())
    {
      embedded, answers := IndexThought(t, c, true, pieces(c), provider, setting, newId);
      AddedStoresOnce(pieces, old(Model()), t, c, answers, setting, newId);
    }

    /** Takes the new fields, and writes again only the entries that depend on a changed one. */
    method UpdateThought(t: nat, c: Content, provider: Provider, setting: Choice, newId: nat)
        returns (found: bool, embedded: bool, ghost answers: Answers)
      requires Valid() && HonestProvider(provider) && newId !in indexes
      modifies this
      ensures Valid() && found == (t in old(thoughts)) && order == old(order)
      ensures thoughts == if found then old(thoughts)[t := c] else old(thoughts)
      ensures found && c == old(thoughts[t]) ==> embedded && Model() == old(Model())
      ensures found && c != old(thoughts[t]) ==>
                var tagsOnly := SameButTags(old(thoughts[t]), c);
                PiecesStored(pieces, provider, WithoutStale(old(Model()).(thoughts := thoughts), t, tagsOnly),
                             setting, newId,
                             t, if tagsOnly then pieces(c)[..1] else pieces(c), embedded, Model())
      ensures Model() ==
              if found then Next(pieces, old(Model()), Update(t, c, answers, setting, newId)) else old(Model())
    {
      answers := Answers(Refused, Refused);
      if t !in thoughts {
        return false, false, answers;
      }
      found, embedded := true, true;
      var tagsOnly := SameButTags(thoughts[t], c);
      var tagsChanged := c.tags != thoughts[t].tags;
      if tagsOnly && !tagsChanged {
        SameContent(pieces, Model(), t, c);
        thoughts := thoughts[t := c];
        return;
      }
      DropStale(t, c, tagsOnly);
      ghost var dropped := Model();
      var newPieces := if tagsOnly then pieces(c)[..1] else pieces(c);
      embedded, answers := IndexThought(t, c, false, newPieces, provider, setting, newId);
      IndexThoughtKeepsThoughts(pieces, dropped, t, c, newPieces, answers, setting, newId);
    }

    /** The new fields, without the entries they make stale. */
    method DropStale(t: nat, c: Content, tagsOnly: bool)
      requires Valid() && t in thoughts && tagsOnly == SameButTags(thoughts[t], c)
      modifies this`thoughts, this`entries
      ensures Valid() && Model() == WithoutStale(old(Model()).(thoughts := old(thoughts)[t := c]), t, tagsOnly)
    {
      StaleGone(pieces, Model(), t, c);
      thoughts := thoughts[t := c];
      entries := map k | k in entries && !Stale(indexes, t, tagsOnly, k) :: entries[k];
    }

    /** Takes the thought and all of its entries away. */
    method DeleteThought(t: nat) returns (found: bool)
      requires Valid()
      modifies this
      ensures Valid() && found == (t in old(thoughts)) && thoughts == old(thoughts) - {t}
      ensures Model() == if found then Next(pieces, old(Model()), Delete(t)) else old(Model())
    {
      if t !in thoughts {
        return false;
      }
      DeletedKeeps(pieces, Model(), t);
      order, thoughts := Without(order, t), thoughts - {t};
      entries := map k | k in entries && k.thought != t :: entries[k];
      found := true;
    }

    /** Embed the query, fill in some missing thoughts in the same call, and say
        which index and vector to compare with; none means by words only. */
    method Search(query: string, tags: seq<string>, instruction: string -> string, provider: Provider, setting: Choice,
                  newId: nat)
      returns (index: Option<nat>, queryVector: Option<Vector>, ghost answer: Answer)
      requires Valid() && HonestProvider(provider) && newId !in indexes
      modifies this
      ensures Valid() && Model() == Next(pieces, old(Model()), IndexState.Search(answer, setting, newId))
      ensures order == old(order) && thoughts == old(thoughts)
      ensures queryVector.Some? <==>
                SomeMatch(old(thoughts), tags)
                  && SearchWorks(pieces, provider, old(Model()), setting, query, instruction)
      ensures queryVector.Some? ==>
                && index.Some? && WithStatus(Model(), Active) == index
                && queryVector.value == Vector(indexes[index.value].choice.model,
                                               instruction(indexes[index.value].choice.model) + query,
                                               indexes[index.value].dimension)
                && HasAllOf(pieces, Model(), index.value,
                            Batch(pieces, old(Model()), old(WithStatus(Model(), Active)), BACKFILL_BATCH), None)
    {
      if SomeMatch(thoughts, tags) {
        index, queryVector, answer := SearchByMeaning(query, instruction, provider, setting, newId);
      } else {
        index, queryVector, answer := None, None, Refused;
      }
    }

    /** A search that matches some thought. */
    method SearchByMeaning(query: string, instruction: string -> string, provider: Provider,
                           setting: Choice, newId: nat)
      returns (index: Option<nat>, queryVector: Option<Vector>, ghost answer: Answer)
      requires Valid() && HonestProvider(provider) && newId !in indexes && thoughts != map[]
      modifies this
      ensures Valid() && Model() == Next(pieces, old(Model()), IndexState.Search(answer, setting, newId))
      ensures order == old(order) && thoughts == old(thoughts)
      ensures queryVector.Some? <==> SearchWorks(pieces, provider, old(Model()), setting, query, instruction)
      ensures queryVector.Some? ==>
                && index.Some? && WithStatus(Model(), Active) == index
                && queryVector.value == Vector(indexes[index.value].choice.model,
                                               instruction(indexes[index.value].choice.model) + query,
                                               indexes[index.value].dimension)
                && HasAllOf(pieces, Model(), index.value,
                            Batch(pieces, old(Model()), old(WithStatus(Model(), Active)), BACKFILL_BATCH), None)
    {
      ghost var st := Model();
      var active := IndexWithStatus(Active);
      var batch := MissingThoughts(active, BACKFILL_BATCH);
      SearchItemsGood(pieces, st, active);
      var ok;
      ok, index, queryVector, answer :=
        EmbedForIndex(active, ItemsOf(pieces, thoughts, batch), Some(Asked(instruction, query)), provider,
                      setting, Active, None, newId);
      SearchFacts(pieces, st, answer, setting, newId);
      if !ok {
        index, queryVector := None, None;
      }
    }
  }

  /** Some thought has one of the tags searched for, or there is one and none is asked for. */
  predicate SomeMatch(thoughts: map<nat, Content>, tags: seq<string>) {
    exists t | t in thoughts :: tags == [] || exists tag | tag in tags :: tag in thoughts[t].tags
  }

  /** The call for a search: the query, after the model's instruction, and a batch of missing thoughts. */
  ghost predicate SearchWorks(pieces: Splitter, provider: Provider, st: State, setting: Choice, query: string,
                              instruction: string -> string)
    requires Known(st.thoughts, st.order)
  {
    var active := WithStatus(st, Active);
    var batch := Batch(pieces, st, active, BACKFILL_BATCH);
    && Known(st.thoughts, batch)
    && CallWorks(provider, st, active, setting, Some(Asked(instruction, query)),
                 ItemsOf(pieces, st.thoughts, batch))
  }

  lemma SearchItemsGood(pieces: Splitter, st: State, active: Option<nat>)
    requires Splits(pieces) && Sane(st)
    ensures Known(st.thoughts, Batch(pieces, st, active, BACKFILL_BATCH))
    ensures Good(ItemsOf(pieces, st.thoughts, Batch(pieces, st, active, BACKFILL_BATCH)))
  {
    BatchIsPrefix(pieces, st, active, BACKFILL_BATCH);
    BatchDistinct(pieces, st, active, BACKFILL_BATCH);
    ItemsGood(pieces, st.thoughts, Batch(pieces, st, active, BACKFILL_BATCH));
  }

  lemma SearchFacts(pieces: Splitter, st: State, answer: Answer, setting: Choice, newId: nat)
    requires Inv(pieces, st) && newId !in st.indexes && st.thoughts != map[]
    requires Known(st.thoughts, Batch(pieces, st, WithStatus(st, Active), BACKFILL_BATCH))
    ensures
      var active := WithStatus(st, Active);
      var batch := Batch(pieces, st, active, BACKFILL_BATCH);
      var e := IndexState.EmbedForIndex(st, active, ItemsOf(pieces, st.thoughts, batch), true, answer, setting, Active,
                                        newId);
      && e.st == Next(pieces, st, IndexState.Search(answer, setting, newId)) && Inv(pieces, e.st)
      && e.st.order == st.order && e.st.thoughts == st.thoughts
      && (e.ok ==>
            && e.at.Some? && WithStatus(e.st, Active) == e.at
            && HasAllOf(pieces, e.st, e.at.value, batch, None))
  {
    var active := WithStatus(st, Active);
    var items := ItemsOf(pieces, st.thoughts, Batch(pieces, st, active, BACKFILL_BATCH));
    BatchEmbedded(pieces, st, active, BACKFILL_BATCH, true, answer, setting, Active, newId);
    ActiveTarget(st, active, items, answer, setting, newId);
    EmbedKeepsThoughts(st, active, items, true, answer, setting, Active, newId);
    SearchFills(pieces, st, answer, setting, newId);
    SearchCallOk(st, active, items, answer, setting, newId);
  }

  lemma WithinStep(pieces: Splitter, thoughts: map<nat, Content>, rows: seq<nat>, n: nat, budget: int, texts: nat,
                   chosen: seq<nat>)
    requires n < |rows| && Known(thoughts, rows)
    ensures
      var count := |pieces(thoughts[rows[n]])|;
      chosen + Within(pieces, thoughts, rows[n..], budget, texts, n > 0) ==
      if n > 0 && texts + count > budget then chosen
      else (chosen + [rows[n]]) + Within(pieces, thoughts, rows[n + 1..], budget, texts + count, true)
  {
    assert rows[n..][1..] == rows[n + 1..];
    var count := |pieces(thoughts[rows[n]])|;
    Assoc(chosen, [rows[n]], Within(pieces, thoughts, rows[n + 1..], budget, texts + count, true));
  }

  lemma EmptyPut(entries: Entries, at: nat, index: Index, t: nat)
    ensures Put(entries, at, index, Item(t, [])) == entries
  {
    var after := Put(entries, at, index, Item(t, []));
    forall k: Key
      ensures (k in after <==> k in entries) && (k in entries ==> after[k] == entries[k])
    {
      PutLookup(entries, at, index, Item(t, []), k);
    }
  }

  lemma ClearOneMore(entries: Entries, at: nat, items: seq<Item>, n: nat)
    requires n < |items|
    ensures
      var before := Cleared(entries, at, items[..n]);
      Cleared(entries, at, items[..n + 1]) == map k | k in before && !Writes(at, items[n], k) :: before[k]
  {
    var some, more := items[..n], items[..n + 1];
    forall k: Key
      ensures WrittenByAny(at, more, k) <==> WrittenByAny(at, some, k) || Writes(at, items[n], k)
    {
      if Writes(at, items[n], k) {
        assert Writes(at, more[n], k);
      }
      if m :| 0 <= m < |some| && Writes(at, some[m], k) {
        assert more[m] == some[m];
      }
      if m :| 0 <= m < |more| && Writes(at, more[m], k) {
        assert m < n ==> some[m] == more[m];
      }
    }
  }
}
