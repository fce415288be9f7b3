/** When an index has all pieces of each thought whose head it has, request by request and over runs. */
module Completeness {
  import opened Wrappers
  import opened Chunking
  import opened IndexState
  import opened IndexInvariants
  import opened IndexRuns

  /** If the thought's head is in the index, all of its pieces are. */
  predicate WholeAt(pieces: Splitter, thoughts: map<nat, Content>, entries: Entries, i: nat, t: nat)
    requires t in thoughts
  {
    Key(i, t, 0) in entries ==> HasRest(pieces, thoughts, entries, i, t, 0)
  }

  /** The pieces of the thought after its first n are in the index. */
  predicate HasRest(pieces: Splitter, thoughts: map<nat, Content>, entries: Entries, i: nat, t: nat, n: nat)
    requires t in thoughts
  {
    forall chunk | n <= chunk < |pieces(thoughts[t])| :: Key(i, t, chunk) in entries
  }

  /** Each thought whose head the index has, it has all of. */
  ghost predicate WholeIn(pieces: Splitter, thoughts: map<nat, Content>, entries: Entries, i: nat) {
    forall t | t in thoughts :: WholeAt(pieces, thoughts, entries, i, t)
  }

  ghost predicate Whole(pieces: Splitter, st: State) {
    forall i | i in st.indexes :: WholeIn(pieces, st.thoughts, st.entries, i)
  }

  lemma AbsentIsWhole(pieces: Splitter, st: State, i: nat)
    requires Sound(pieces, st) && i !in st.indexes
    ensures WholeIn(pieces, st.thoughts, st.entries, i)
  {
    forall t | t in st.thoughts
      ensures Key(i, t, 0) !in st.entries
    {
      EntryKnown(pieces, st, Key(i, t, 0));
    }
  }

  // --- Writing entries ---------------------------------------------------------

  /** Written in index i, the item leaves its thought with all of its pieces. */
  predicate Fills(pieces: Splitter, thoughts: map<nat, Content>, entries: Entries, i: nat, item: Item) {
    item.thought in thoughts && HasRest(pieces, thoughts, entries, i, item.thought, |item.pieces|)
  }

  predicate AllFill(pieces: Splitter, thoughts: map<nat, Content>, entries: Entries, i: nat, items: seq<Item>) {
    forall n | 0 <= n < |items| :: Fills(pieces, thoughts, entries, i, items[n])
  }

  predicate Covers(after: Entries, entries: Entries) {
    forall k | k in entries :: k in after
  }

  lemma PutCovers(entries: Entries, at: nat, index: Index, item: Item)
    ensures Covers(Put(entries, at, index, item), entries)
  {
    forall k | k in entries
      ensures k in Put(entries, at, index, item)
    {
      PutLookup(entries, at, index, item, k);
    }
  }

  lemma PutWholeAt(pieces: Splitter, thoughts: map<nat, Content>, entries: Entries, i: nat, index: Index,
                   item: Item, t: nat)
    requires t in thoughts && WholeAt(pieces, thoughts, entries, i, t) && Fills(pieces, thoughts, entries, i, item)
    ensures WholeAt(pieces, thoughts, Put(entries, i, index, item), i, t)
  {
    var after := Put(entries, i, index, item);
    PutLookup(entries, i, index, item, Key(i, t, 0));
    if Key(i, t, 0) in after {
      forall chunk | 0 <= chunk < |pieces(thoughts[t])|
        ensures Key(i, t, chunk) in after
      {
        PutLookup(entries, i, index, item, Key(i, t, chunk));
      }
    }
  }

  lemma {:induction false} PutAllWhole(pieces: Splitter, thoughts: map<nat, Content>, entries: Entries, i: nat,
                                       index: Index, items: seq<Item>)
    requires WholeIn(pieces, thoughts, entries, i) && AllFill(pieces, thoughts, entries, i, items)
    ensures WholeIn(pieces, thoughts, PutAll(entries, i, index, items), i)
    decreases |items|
  {
    if items != [] {
      var next := Put(entries, i, index, items[0]);
      forall t | t in thoughts
        ensures WholeAt(pieces, thoughts, next, i, t)
      {
        PutWholeAt(pieces, thoughts, entries, i, index, items[0], t);
      }
      PutCovers(entries, i, index, items[0]);
      RestStillFilled(pieces, thoughts, entries, next, i, items);
      PutAllWhole(pieces, thoughts, next, i, index, items[1..]);
    }
  }

  lemma RestStillFilled(pieces: Splitter, thoughts: map<nat, Content>, entries: Entries, next: Entries, i: nat,
                        items: seq<Item>)
    requires items != [] && Covers(next, entries) && AllFill(pieces, thoughts, entries, i, items)
    ensures AllFill(pieces, thoughts, next, i, items[1..])
  {
    forall n | 0 <= n < |items[1..]|
      ensures Fills(pieces, thoughts, next, i, items[1..][n])
    {
      assert Fills(pieces, thoughts, entries, i, items[n + 1]);
    }
  }

  ghost predicate SameKeysAt(a: Entries, b: Entries, i: nat) {
    forall k: Key | k.index == i :: k in a <==> k in b
  }

  lemma SameKeysSameWhole(pieces: Splitter, thoughts: map<nat, Content>, a: Entries, b: Entries, i: nat)
    requires SameKeysAt(a, b, i)
    ensures WholeIn(pieces, thoughts, a, i) <==> WholeIn(pieces, thoughts, b, i)
    ensures forall t, n | t in thoughts :: HasRest(pieces, thoughts, a, i, t, n) <==>
              HasRest(pieces, thoughts, b, i, t, n)
  {
    forall t, n | t in thoughts
      ensures HasRest(pieces, thoughts, a, i, t, n) <==> HasRest(pieces, thoughts, b, i, t, n)
    {
    }
    forall t | t in thoughts
      ensures WholeAt(pieces, thoughts, a, i, t) <==> WholeAt(pieces, thoughts, b, i, t)
    {
    }
  }

  /** One call leaves an index whole if each item that it writes there is whole with what is there. */
  lemma EmbedWhole(pieces: Splitter, st: State, at: Option<nat>, items: seq<Item>, query: bool, answer: Answer,
                   setting: Choice, status: Status, newId: nat, i: nat)
    requires if at.Some? then at.value in st.indexes else newId !in st.indexes
    requires WholeIn(pieces, st.thoughts, st.entries, i)
    requires
      var e := EmbedForIndex(st, at, items, query, answer, setting, status, newId);
      e.ok && e.at == Some(i) ==> AllFill(pieces, st.thoughts, st.entries, i, items)
    ensures
      var e := EmbedForIndex(st, at, items, query, answer, setting, status, newId);
      WholeIn(pieces, st.thoughts, e.st.entries, i)
  {
    var e := EmbedForIndex(st, at, items, query, answer, setting, status, newId);
    EmbedWrites(st, at, items, query, answer, setting, status, newId);
    if e.ok && e.at == Some(i) && (query || items != []) {
      PutAllWhole(pieces, st.thoughts, st.entries, i, e.st.indexes[i], items);
    } else {
      EmbedSpares(st, at, items, query, answer, setting, status, newId);
      SameKeysSameWhole(pieces, st.thoughts, st.entries, e.st.entries, i);
    }
  }

  lemma EmbedWrites(st: State, at: Option<nat>, items: seq<Item>, query: bool, answer: Answer, setting: Choice,
                    status: Status, newId: nat)
    requires if at.Some? then at.value in st.indexes else newId !in st.indexes
    ensures
      var e := EmbedForIndex(st, at, items, query, answer, setting, status, newId);
      && (if e.ok && (query || items != []) then
            e.at.Some? && e.at.value in e.st.indexes
              && e.st.entries == PutAll(st.entries, e.at.value, e.st.indexes[e.at.value], items)
          else e.st.entries == st.entries)
      && e.st.thoughts == st.thoughts
  {
  }

  // --- Storing and updating ----------------------------------------------------

  /** The two calls of a store or an update write the index with this id. */
  ghost predicate WritesIn(st: State, answers: Answers, newId: nat, i: nat) {
    var active, building := WithStatus(st, Active), WithStatus(st, Building);
    || (CallWrites(st, active, answers.active) && active.GetOr(newId) == i)
    || (building == Some(i) && CallWrites(st, building, answers.building))
  }

  /** What the active index's call leaves: its writing, and the building index to write next. */
  lemma AfterActiveCall(pieces: Splitter, st: State, stored: State, t: nat, newPieces: seq<Piece>, answers: Answers,
                        setting: Choice, newId: nat) returns (items: seq<Item>, first: Embed)
    requires Inv(pieces, st) && Inv(pieces, stored) && newId !in st.indexes && stored.indexes == st.indexes
    requires t in stored.thoughts && newPieces <= pieces(stored.thoughts[t])
    requires forall u | u in st.thoughts && u != t :: u in stored.thoughts && stored.thoughts[u] == st.thoughts[u]
    ensures items == ActiveItems(pieces, st, t, newPieces) && items != [] && items[0] == Item(t, newPieces)
    ensures forall n | 1 <= n < |items| ::
              items[n].thought != t && items[n].thought in stored.thoughts
                && items[n].pieces == pieces(stored.thoughts[items[n].thought])
    ensures first == EmbedForIndex(stored, WithStatus(st, Active), items, false, answers.active, setting, Active, newId)
    ensures WithStatus(stored, Active) == WithStatus(st, Active)
    ensures first.ok <==> CallWrites(stored, WithStatus(stored, Active), answers.active)
    ensures first.ok ==> first.at == Some(WithStatus(stored, Active).GetOr(newId))
    ensures first.st.thoughts == stored.thoughts
    ensures SameBuilding(stored, first.st) && Covers(first.st.entries, stored.entries)
  {
    items := ActiveItems(pieces, st, t, newPieces);
    SameRowsSameStatuses(st, stored);
    ActiveItemsCurrent(pieces, st, t, newPieces, stored.thoughts);
    forall n | 1 <= n < |items|
      ensures items[n].thought in stored.thoughts
    {
      assert Current(pieces, stored.thoughts, items[n]);
    }
    var active := WithStatus(stored, Active);
    first := EmbedForIndex(stored, active, items, false, answers.active, setting, Active, newId);
    CallOk(stored, active, items, answers.active, setting, newId);
    EmbedKeeps(pieces, stored, active, items, false, answers.active, setting, Active, newId);
    EmbedSpares(stored, active, items, false, answers.active, setting, Active, newId);
    BuildingStays(stored, first, newId);
  }

  ghost predicate SameBuilding(a: State, b: State) {
    var x := WithStatus(a, Building);
    && WithStatus(b, Building) == x
    && (x.Some? ==> x.value in b.indexes && b.indexes[x.value] == a.indexes[x.value])
  }

  lemma ActiveItemsFill(pieces: Splitter, thoughts: map<nat, Content>, entries: Entries, i: nat, items: seq<Item>)
    requires items != [] && Fills(pieces, thoughts, entries, i, items[0])
    requires forall n | 1 <= n < |items| ::
               items[n].thought in thoughts && items[n].pieces == pieces(thoughts[items[n].thought])
    ensures AllFill(pieces, thoughts, entries, i, items)
  {
    forall n | 0 <= n < |items|
      ensures Fills(pieces, thoughts, entries, i, items[n])
    {
    }
  }

  lemma BuildingCallWhole(pieces: Splitter, st: State, t: nat, newPieces: seq<Piece>, answer: Answer, setting: Choice,
                          newId: nat, i: nat)
    requires t in st.thoughts && WholeIn(pieces, st.thoughts, st.entries, i)
    requires
      var b := WithStatus(st, Building);
      b == Some(i) && CallWrites(st, b, answer) ==> HasRest(pieces, st.thoughts, st.entries, i, t, |newPieces|)
    ensures
      var after := BuildingCall(st, t, newPieces, answer, setting, newId);
      after.thoughts == st.thoughts && WholeIn(pieces, st.thoughts, after.entries, i)
  {
    var b := WithStatus(st, Building);
    if b.Some? {
      CallOk(st, b, [Item(t, newPieces)], answer, setting, newId);
      EmbedWhole(pieces, st, b, [Item(t, newPieces)], false, answer, setting, Active, newId, i);
    }
  }

  /** Storing or updating a thought leaves an index whole, if its new pieces do when they are written there. */
  lemma IndexThoughtWhole(pieces: Splitter, st: State, t: nat, c: Content, add: bool, newPieces: seq<Piece>,
                          answers: Answers, setting: Choice, newId: nat, i: nat)
    requires Inv(pieces, st) && newId !in st.indexes && newPieces <= pieces(c)
    requires if add then t !in st.thoughts else t in st.thoughts && st.thoughts[t] == c
    requires
      var stored := if add then Stored(st, t, c) else st;
      && WholeIn(pieces, stored.thoughts, stored.entries, i)
      && (WritesIn(stored, answers, newId, i) ==> HasRest(pieces, stored.thoughts, stored.entries, i, t, |newPieces|))
    ensures
      var after := IndexThought(pieces, st, t, c, add, newPieces, answers, setting, newId);
      WholeIn(pieces, after.thoughts, after.entries, i)
  {
    var stored := if add then Stored(st, t, c) else st;
    if add {
      StoredKeeps(pieces, st, t, c);
    }
    var items, first := AfterActiveCall(pieces, st, stored, t, newPieces, answers, setting, newId);
    if first.ok && first.at == Some(i) {
      ActiveItemsFill(pieces, stored.thoughts, stored.entries, i, items);
    }
    EmbedWhole(pieces, stored, WithStatus(st, Active), items, false, answers.active, setting, Active, newId, i);
    BuildingCallWhole(pieces, first.st, t, newPieces, answers.building, setting, newId, i);
  }

  lemma StoredWhole(pieces: Splitter, st: State, t: nat, c: Content, i: nat)
    requires Sound(pieces, st) && t !in st.thoughts && WholeIn(pieces, st.thoughts, st.entries, i)
    ensures WholeIn(pieces, st.thoughts[t := c], st.entries, i)
  {
    EntryKnown(pieces, st, Key(i, t, 0));
    var thoughts := st.thoughts[t := c];
    forall u | u in thoughts
      ensures WholeAt(pieces, thoughts, st.entries, i, u)
    {
      assert u != t ==> WholeAt(pieces, st.thoughts, st.entries, i, u);
    }
  }

  lemma StaleGoneWhole(pieces: Splitter, st: State, t: nat, c: Content, i: nat)
    requires Splits(pieces) && Inv(pieces, st) && t in st.thoughts && WholeIn(pieces, st.thoughts, st.entries, i)
    ensures
      var after := WithoutStale(st.(thoughts := st.thoughts[t := c]), t, SameButTags(st.thoughts[t], c));
      WholeIn(pieces, after.thoughts, after.entries, i)
  {
    var after := WithoutStale(st.(thoughts := st.thoughts[t := c]), t, SameButTags(st.thoughts[t], c));
    forall u | u in after.thoughts
      ensures WholeAt(pieces, after.thoughts, after.entries, i, u)
    {
      EntryKnown(pieces, st, Key(i, u, 0));
      assert WholeAt(pieces, st.thoughts, st.entries, i, u);
    }
  }

  // --- Changes of tags -----------------------------------------------------------

  /** A change of tags only. */
  predicate Retags(st: State, t: nat, c: Content) {
    t in st.thoughts && SameButTags(st.thoughts[t], c) && c.tags != st.thoughts[t].tags
  }

  /** If new tags write the index, it has the thought's raw-text pieces. */
  ghost predicate FindsRest(pieces: Splitter, st: State, t: nat, answers: Answers, newId: nat, i: nat)
    requires t in st.thoughts
  {
    WritesIn(st, answers, newId, i) ==> HasRest(pieces, st.thoughts, st.entries, i, t, 1)
  }

  /** Dropping the head changes neither which index is written nor what else is there. */
  lemma HeadDropped(pieces: Splitter, st: State, t: nat, c: Content, answers: Answers, newId: nat, i: nat)
    requires Splits(pieces) && Inv(pieces, st) && t in st.thoughts && SameButTags(st.thoughts[t], c)
    ensures
      var after := WithoutStale(st.(thoughts := st.thoughts[t := c]), t, true);
      && (WritesIn(after, answers, newId, i) <==> WritesIn(st, answers, newId, i))
      && (HasRest(pieces, after.thoughts, after.entries, i, t, 1) <==>
            HasRest(pieces, st.thoughts, st.entries, i, t, 1))
  {
    var after := WithoutStale(st.(thoughts := st.thoughts[t := c]), t, true);
    SameRowsSameStatuses(st, after);
    assert forall chunk: nat | chunk >= 1 :: Key(i, t, chunk) in after.entries <==> Key(i, t, chunk) in st.entries;
  }

  /** A call that writes only the head of a thought adds no other piece of it. */
  lemma HeadOnlyWritten(st: State, at: Option<nat>, items: seq<Item>, answer: Answer, setting: Choice,
                        newId: nat, t: nat)
    requires if at.Some? then at.value in st.indexes else newId !in st.indexes && WithStatus(st, Active) == None
    requires items != [] && items[0].thought == t && |items[0].pieces| == 1
    requires forall n | 1 <= n < |items| :: items[n].thought != t
    ensures
      var e := EmbedForIndex(st, at, items, false, answer, setting, Active, newId);
      && (forall i, chunk | chunk >= 1 :: Key(i, t, chunk) in e.st.entries <==> Key(i, t, chunk) in st.entries)
      && (CallWrites(st, at, answer) ==> Key(at.GetOr(newId), t, 0) in e.st.entries)
  {
    var e := EmbedForIndex(st, at, items, false, answer, setting, Active, newId);
    CallOk(st, at, items, answer, setting, newId);
    if e.ok {
      var i := at.GetOr(newId);
      forall k: Key
        ensures k in e.st.entries <==> k in st.entries || exists n :: 0 <= n < |items| && Writes(i, items[n], k)
      {
        PutAllKeys(st.entries, i, e.st.indexes[i], items, k);
      }
      assert Writes(i, items[0], Key(i, t, 0));
    }
  }

  lemma BuildingHeadOnly(st: State, t: nat, newPieces: seq<Piece>, answer: Answer, setting: Choice, newId: nat, i: nat)
    requires |newPieces| == 1
    ensures
      var after, b := BuildingCall(st, t, newPieces, answer, setting, newId), WithStatus(st, Building);
      && (forall chunk | chunk >= 1 :: Key(i, t, chunk) in after.entries <==> Key(i, t, chunk) in st.entries)
      && (Key(i, t, 0) in st.entries || (b == Some(i) && CallWrites(st, b, answer)) ==> Key(i, t, 0) in after.entries)
  {
    var b := WithStatus(st, Building);
    if b.Some? {
      HeadOnlyWritten(st, b, [Item(t, newPieces)], answer, setting, newId, t);
      EmbedSpares(st, b, [Item(t, newPieces)], false, answer, setting, Active, newId);
    }
  }

  /** Writing a thought's head alone adds that entry and no other of it. */
  lemma OnlyHeadWritten(pieces: Splitter, st: State, t: nat, c: Content, newPieces: seq<Piece>, answers: Answers,
                        setting: Choice, newId: nat, i: nat)
    requires Inv(pieces, st) && newId !in st.indexes && t in st.thoughts && st.thoughts[t] == c
    requires |newPieces| == 1 && newPieces <= pieces(c)
    ensures
      var after := IndexThought(pieces, st, t, c, false, newPieces, answers, setting, newId);
      && after.thoughts == st.thoughts
      && (forall chunk | chunk >= 1 :: Key(i, t, chunk) in after.entries <==> Key(i, t, chunk) in st.entries)
      && (WritesIn(st, answers, newId, i) ==> Key(i, t, 0) in after.entries)
  {
    var items, first := AfterActiveCall(pieces, st, st, t, newPieces, answers, setting, newId);
    HeadOnlyWritten(st, WithStatus(st, Active), items, answers.active, setting, newId, t);
    BuildingHeadOnly(first.st, t, newPieces, answers.building, setting, newId, i);
    BuildingKeepsThoughts(first.st, t, newPieces, answers.building, setting, newId);
  }

  lemma BuildingKeepsThoughts(st: State, t: nat, newPieces: seq<Piece>, answer: Answer, setting: Choice, newId: nat)
    ensures BuildingCall(st, t, newPieces, answer, setting, newId).thoughts == st.thoughts
  {
  }

  /** New tags leave an index whole exactly when it has the raw-text pieces or is not written. */
  lemma RetaggedWhole(pieces: Splitter, st: State, t: nat, c: Content, answers: Answers, setting: Choice,
                      newId: nat, i: nat)
    requires Splits(pieces) && Inv(pieces, st) && Retags(st, t, c) && newId !in st.indexes
    requires WholeIn(pieces, st.thoughts, st.entries, i)
    ensures
      var after := Updated(pieces, st, t, c, answers, setting, newId);
      WholeIn(pieces, after.thoughts, after.entries, i) <==> FindsRest(pieces, st, t, answers, newId, i)
  {
    var dropped := WithoutStale(st.(thoughts := st.thoughts[t := c]), t, true);
    var newPieces := pieces(c)[..1];
    StaleGone(pieces, st, t, c);
    StaleGoneWhole(pieces, st, t, c, i);
    HeadDropped(pieces, st, t, c, answers, newId, i);
    if FindsRest(pieces, st, t, answers, newId, i) {
      IndexThoughtWhole(pieces, dropped, t, c, false, newPieces, answers, setting, newId, i);
    } else {
      OnlyHeadWritten(pieces, dropped, t, c, newPieces, answers, setting, newId, i);
      var after := Updated(pieces, st, t, c, answers, setting, newId);
      assert Key(i, t, 0) in after.entries && !HasRest(pieces, after.thoughts, after.entries, i, t, 1);
      assert !WholeAt(pieces, after.thoughts, after.entries, i, t);
    }
  }

  // --- Every request -------------------------------------------------------------

  /** The one request that can leave an index incomplete is a change of tags only. */
  ghost predicate KeepsWhole(pieces: Splitter, st: State, step: Step, i: nat) {
    step.Update? && Retags(st, step.thought, step.content) ==>
      FindsRest(pieces, st, step.thought, step.answers, step.newId, i)
  }

  lemma UpdatedWhole(pieces: Splitter, st: State, t: nat, c: Content, answers: Answers, setting: Choice,
                     newId: nat, i: nat)
    requires Splits(pieces) && Inv(pieces, st) && t in st.thoughts && newId !in st.indexes && !Retags(st, t, c)
    requires WholeIn(pieces, st.thoughts, st.entries, i)
    ensures
      var after := Updated(pieces, st, t, c, answers, setting, newId);
      WholeIn(pieces, after.thoughts, after.entries, i)
  {
    if SameButTags(st.thoughts[t], c) {
      assert st.thoughts[t := c] == st.thoughts;
    } else {
      var dropped := WithoutStale(st.(thoughts := st.thoughts[t := c]), t, false);
      StaleGone(pieces, st, t, c);
      StaleGoneWhole(pieces, st, t, c, i);
      IndexThoughtWhole(pieces, dropped, t, c, false, pieces(c), answers, setting, newId, i);
    }
  }

  lemma BatchWhole(pieces: Splitter, st: State, at: Option<nat>, batch: seq<nat>, query: bool, answer: Answer,
                   setting: Choice, status: Status, newId: nat, i: nat)
    requires newId !in st.indexes && Known(st.thoughts, batch) && (at.Some? ==> at.value in st.indexes)
    requires WholeIn(pieces, st.thoughts, st.entries, i)
    ensures
      var after := EmbedForIndex(st, at, ItemsOf(pieces, st.thoughts, batch), query, answer, setting, status, newId).st;
      after.thoughts == st.thoughts && WholeIn(pieces, st.thoughts, after.entries, i)
  {
    var items := ItemsOf(pieces, st.thoughts, batch);
    EmbedWrites(st, at, items, query, answer, setting, status, newId);
    EmbedWhole(pieces, st, at, items, query, answer, setting, status, newId, i);
  }

  /** Every request keeps each index whole, but for new tags on a thought whose other pieces it lacks. */
  lemma StepKeepsWhole(pieces: Splitter, st: State, step: Step, i: nat)
    requires Splits(pieces) && Inv(pieces, st) && Enabled(st, step) && WholeIn(pieces, st.thoughts, st.entries, i)
    ensures WholeIn(pieces, Next(pieces, st, step).thoughts, Next(pieces, st, step).entries, i) <==>
              KeepsWhole(pieces, st, step, i)
  {
    match step
    case Add(t, c, answers, setting, newId) =>
      StoredWhole(pieces, st, t, c, i);
      IndexThoughtWhole(pieces, st, t, c, true, pieces(c), answers, setting, newId, i);
    case Update(t, c, answers, setting, newId) =>
      if Retags(st, t, c) {
        RetaggedWhole(pieces, st, t, c, answers, setting, newId, i);
      } else {
        UpdatedWhole(pieces, st, t, c, answers, setting, newId, i);
      }
    case Search(answer, setting, newId) =>
      var active := WithStatus(st, Active);
      BatchIsPrefix(pieces, st, active, BACKFILL_BATCH);
      BatchWhole(pieces, st, active, Batch(pieces, st, active, BACKFILL_BATCH), true, answer, setting,
                 Active, newId, i);
    case Fill(at, answer, setting, newId) =>
      BatchIsPrefix(pieces, st, at, REBUILD_BATCH);
      BatchWhole(pieces, st, at, Batch(pieces, st, at, REBUILD_BATCH), false, answer, setting, Building, newId, i);
    case Delete(_) =>
      RemovalWhole(pieces, st, step, i);
    case Swap(_) =>
      RemovalWhole(pieces, st, step, i);
    case Drop(_) =>
      RemovalWhole(pieces, st, step, i);
  }

  lemma RemovalWhole(pieces: Splitter, st: State, step: Step, i: nat)
    requires Known(st.thoughts, st.order) && Enabled(st, step) && (step.Delete? || step.Swap? || step.Drop?)
    requires WholeIn(pieces, st.thoughts, st.entries, i)
    ensures WholeIn(pieces, Next(pieces, st, step).thoughts, Next(pieces, st, step).entries, i)
  {
    var after := Next(pieces, st, step);
    forall t | t in after.thoughts
      ensures WholeAt(pieces, after.thoughts, after.entries, i, t)
    {
      assert WholeAt(pieces, st.thoughts, st.entries, i, t);
    }
  }

  // --- Runs ------------------------------------------------------------------------

  /** Whenever tags alone are changed and index i is written, it has the thought's other pieces. */
  ghost predicate AllKeep(pieces: Splitter, st: State, steps: seq<Step>, i: nat)
    decreases |steps|
  {
    steps != [] && Known(st.thoughts, st.order) && Enabled(st, steps[0]) ==>
      KeepsWhole(pieces, st, steps[0], i) && AllKeep(pieces, Next(pieces, st, steps[0]), steps[1..], i)
  }

  /** Over such a run an index that is whole stays so, or becomes whole when it is dropped. */
  lemma {:induction false} RunKeepsWhole(pieces: Splitter, st: State, steps: seq<Step>, end: State, i: nat)
    requires Splits(pieces) && Inv(pieces, st) && Leads(pieces, st, steps, end) && AllKeep(pieces, st, steps, i)
    requires WholeIn(pieces, st.thoughts, st.entries, i) || Drop(i) in steps
    ensures Inv(pieces, end) && WholeIn(pieces, end.thoughts, end.entries, i)
    decreases |steps|
  {
    if steps != [] {
      var next := Next(pieces, st, steps[0]);
      StepKeeps(pieces, st, steps[0]);
      if steps[0] == Drop(i) {
        AbsentIsWhole(pieces, next, i);
      } else if WholeIn(pieces, st.thoughts, st.entries, i) {
        StepKeepsWhole(pieces, st, steps[0], i);
      }
      RunKeepsWhole(pieces, next, steps[1..], end, i);
    }
  }

  /** Just after a swap the new active index holds every piece of every thought,
      each with the vector of its own model. */
  lemma SwapIsComplete(pieces: Splitter, steps: seq<Step>, st: State, b: nat, t: nat, chunk: nat)
    requires Splits(pieces) && Leads(pieces, NOTHING, steps, st) && AllKeep(pieces, NOTHING, steps, b)
    requires Enabled(st, Swap(b)) && t in st.thoughts && chunk < |pieces(st.thoughts[t])|
    ensures
      var after := Swapped(st, b);
      && WithStatus(after, Active) == Some(b)
      && Key(b, t, chunk) in after.entries
      && after.entries[Key(b, t, chunk)] == EntryFor(after.indexes[b], pieces(after.thoughts[t])[chunk])
  {
    NothingIsRight(pieces);
    AbsentIsWhole(pieces, NOTHING, b);
    RunKeepsWhole(pieces, NOTHING, steps, st, b);
    SwapOfWhole(pieces, st, b, t, chunk);
  }

  /** No thought lacks its head, and no head its other pieces. */
  lemma NothingLacks(pieces: Splitter, st: State, b: nat, t: nat, chunk: nat)
    requires Sane(st) && WholeIn(pieces, st.thoughts, st.entries, b) && Missing(st.order, st.entries, Some(b)) == []
    requires t in st.thoughts && chunk < |pieces(st.thoughts[t])|
    ensures Key(b, t, chunk) in st.entries
  {
    MissingMeaning(st.order, st.entries, Some(b));
    assert HasHead(st.entries, Some(b), t);
    assert WholeAt(pieces, st.thoughts, st.entries, b, t);
  }

  lemma SwapActive(pieces: Splitter, st: State, b: nat)
    requires Inv(pieces, st) && IsBuilding(st, b)
    ensures Inv(pieces, Swapped(st, b)) && WithStatus(Swapped(st, b), Active) == Some(b)
  {
    SwappedKeeps(pieces, st, b);
    assert Swapped(st, b).indexes[b].status == Active;
  }

  lemma SwapKeepsEntries(st: State, b: nat, k: Key)
    requires IsBuilding(st, b) && k.index == b
    ensures k in Swapped(st, b).entries <==> k in st.entries
  {
  }

  lemma SwapOfWhole(pieces: Splitter, st: State, b: nat, t: nat, chunk: nat)
    requires Inv(pieces, st) && WholeIn(pieces, st.thoughts, st.entries, b) && Enabled(st, Swap(b))
    requires t in st.thoughts && chunk < |pieces(st.thoughts[t])|
    ensures
      var after := Swapped(st, b);
      && WithStatus(after, Active) == Some(b)
      && Key(b, t, chunk) in after.entries
      && after.entries[Key(b, t, chunk)] == EntryFor(after.indexes[b], pieces(after.thoughts[t])[chunk])
  {
    var after, k := Swapped(st, b), Key(b, t, chunk);
    NothingLacks(pieces, st, b, t, chunk);
    SwapActive(pieces, st, b);
    SwapKeepsEntries(st, b, k);
    assert Right(pieces, after.thoughts, after.indexes, k, after.entries[k]);
  }

  /** A change of tags leaves all indexes whole exactly when each one that it writes
      has the thought's raw-text pieces already; one that it makes has none. */
  lemma TagsUpdateStaysWhole(pieces: Splitter, st: State, t: nat, c: Content, answers: Answers,
                             setting: Choice, newId: nat)
    requires Splits(pieces) && Inv(pieces, st) && Whole(pieces, st) && Retags(st, t, c) && newId !in st.indexes
    ensures Whole(pieces, Updated(pieces, st, t, c, answers, setting, newId)) <==>
            forall i :: FindsRest(pieces, st, t, answers, newId, i)
  {
    var step := Update(t, c, answers, setting, newId);
    var after := Next(pieces, st, step);
    StepKeeps(pieces, st, step);
    forall i: nat
      ensures WholeIn(pieces, after.thoughts, after.entries, i) <==> FindsRest(pieces, st, t, answers, newId, i)
      ensures i !in after.indexes ==> WholeIn(pieces, after.thoughts, after.entries, i)
    {
      if i !in st.indexes {
        AbsentIsWhole(pieces, st, i);
      }
      if i !in after.indexes {
        AbsentIsWhole(pieces, after, i);
      }
      RetaggedWhole(pieces, st, t, c, answers, setting, newId, i);
    }
  }
}
