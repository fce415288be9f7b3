/** A rebuild that has not swapped is unseen: the indexes are as if only the other requests had come. */
module Unseen {
  import opened Wrappers
  import opened Chunking
  import opened IndexState
  import opened IndexInvariants
  import opened IndexRuns
  import opened IndexRows

  /** b is a without its building index; versions aside. */
  ghost predicate Unbuilt(a: State, b: State) {
    && a.order == b.order && a.thoughts == b.thoughts
    && RowsUnbuilt(a.indexes, b.indexes)
    && EntriesUnbuilt(a, b.entries)
  }

  predicate Built(rows: map<nat, Index>, i: nat) {
    i in rows && rows[i].status == Building
  }

  predicate SameRow(x: Index, y: Index) {
    x.choice == y.choice && x.dimension == y.dimension && x.status == y.status
  }

  ghost predicate RowsUnbuilt(a: map<nat, Index>, b: map<nat, Index>) {
    && (forall i :: i in b <==> i in a && !Built(a, i))
    && (forall i | i in b :: SameRow(a[i], b[i]))
  }

  predicate SameAt(a: Entries, b: Entries, k: Key) {
    (k in a <==> k in b) && (k in a ==> a[k] == b[k])
  }

  ghost predicate EntriesUnbuilt(a: State, b: Entries) {
    forall k: Key :: if Built(a.indexes, k.index) then k !in b else SameAt(a.entries, b, k)
  }

  /** The state with no rebuild in it. */
  ghost function WithoutBuilding(st: State): State {
    match WithStatus(st, Building)
    case None => st
    case Some(b) => Dropped(st, b)
  }

  /** The other requests among the steps. */
  function Requested(steps: seq<Step>): seq<Step> {
    if steps == [] then []
    else (if IsRequest(steps[0]) then [steps[0]] else []) + Requested(steps[1..])
  }

  predicate NoSwap(steps: seq<Step>) {
    forall i | 0 <= i < |steps| :: !steps[i].Swap?
  }

  lemma StartUnbuilt(st: State)
    requires OneEach(st.indexes)
    ensures Unbuilt(st, WithoutBuilding(st))
  {
    var b := WithStatus(st, Building);
    if b.Some? {
      forall i | i in st.indexes && i != b.value
        ensures !Built(st.indexes, i)
      {
        assert Apart(st.indexes[i], st.indexes[b.value]);
      }
    }
  }

  // --- What one call writes ----------------------------------------------------

  lemma {:induction false} PutAllElsewhere(entries: Entries, at: nat, index: Index, items: seq<Item>, k: Key)
    requires k.index != at
    ensures SameAt(entries, PutAll(entries, at, index, items), k)
    decreases |items|
  {
    if items != [] {
      PutLookup(entries, at, index, items[0], k);
      PutAllElsewhere(Put(entries, at, index, items[0]), at, index, items[1..], k);
    }
  }

  lemma {:induction false} PutAllSame(a: Entries, b: Entries, at: nat, x: Index, y: Index, items: seq<Item>, k: Key)
    requires SameAt(a, b, k) && SameRow(x, y)
    ensures SameAt(PutAll(a, at, x, items), PutAll(b, at, y, items), k)
    decreases |items|
  {
    if items != [] {
      PutLookup(a, at, x, items[0], k);
      PutLookup(b, at, y, items[0], k);
      PutAllSame(Put(a, at, x, items[0]), Put(b, at, y, items[0]), at, x, y, items[1..], k);
    }
  }

  lemma SameActive(a: State, b: State)
    requires Unbuilt(a, b) && OneEach(a.indexes)
    ensures WithStatus(a, Active) == WithStatus(b, Active) && WithStatus(b, Building) == None
  {
    var x, y := WithStatus(a, Active), WithStatus(b, Active);
    assert x.Some? ==> x.value in b.indexes;
    assert y.Some? ==> y.value in a.indexes && a.indexes[y.value].status == Active;
    assert x.Some? && y.Some? && x != y ==> Apart(a.indexes[x.value], a.indexes[y.value]);
  }

  lemma PutAllUnbuilt(a: State, b: State, at: nat, items: seq<Item>)
    requires Unbuilt(a, b) && at in b.indexes
    ensures Unbuilt(a.(entries := PutAll(a.entries, at, a.indexes[at], items)),
                    b.(entries := PutAll(b.entries, at, b.indexes[at], items)))
  {
    forall k: Key
      ensures
        if Built(a.indexes, k.index) then k !in PutAll(b.entries, at, b.indexes[at], items)
        else SameAt(PutAll(a.entries, at, a.indexes[at], items), PutAll(b.entries, at, b.indexes[at], items), k)
    {
      if Built(a.indexes, k.index) {
        PutAllElsewhere(b.entries, at, b.indexes[at], items, k);
      } else {
        PutAllSame(a.entries, b.entries, at, a.indexes[at], b.indexes[at], items, k);
      }
    }
  }

  lemma MadeUnbuilt(a: State, b: State, setting: Choice, dimension: nat, newId: nat)
    requires Unbuilt(a, b) && newId !in a.indexes && WithStatus(a, Active) == None == WithStatus(b, Active)
    ensures
      var (ma, i) := CreateIndex(a, setting, dimension, Active, newId);
      var (mb, j) := CreateIndex(b, setting, dimension, Active, newId);
      i == j == newId && newId in mb.indexes && Unbuilt(ma, mb)
  {
  }

  /** A call for the active index does the same to both. */
  lemma ActiveCallUnbuilt(a: State, b: State, items: seq<Item>, query: bool, answer: Answer,
                          setting: Choice, newId: nat)
    requires Unbuilt(a, b) && OneEach(a.indexes) && newId !in a.indexes
    ensures
      var at := WithStatus(a, Active);
      at == WithStatus(b, Active)
      && Unbuilt(EmbedForIndex(a, at, items, query, answer, setting, Active, newId).st,
                 EmbedForIndex(b, at, items, query, answer, setting, Active, newId).st)
  {
    SameActive(a, b);
    var at := WithStatus(a, Active);
    if answer.Answered? && (query || items != []) {
      if at.Some? {
        PutAllUnbuilt(a, b, at.value, items);
      } else {
        MadeUnbuilt(a, b, setting, answer.dimension, newId);
        var (ma, i) := CreateIndex(a, setting, answer.dimension, Active, newId);
        var (mb, j) := CreateIndex(b, setting, answer.dimension, Active, newId);
        PutAllUnbuilt(ma, mb, i, items);
      }
    }
  }

  lemma PutInBuilding(a: State, b: State, at: nat, items: seq<Item>)
    requires Unbuilt(a, b) && Built(a.indexes, at)
    ensures Unbuilt(a.(entries := PutAll(a.entries, at, a.indexes[at], items)), b)
  {
    forall k: Key | !Built(a.indexes, k.index)
      ensures SameAt(PutAll(a.entries, at, a.indexes[at], items), b.entries, k)
    {
      PutAllElsewhere(a.entries, at, a.indexes[at], items, k);
    }
  }

  /** A call for the building index, or one that makes it, does nothing to the rest. */
  lemma BuildingUnseen(a: State, b: State, at: Option<nat>, items: seq<Item>, answer: Answer, setting: Choice,
                       status: Status, newId: nat)
    requires Unbuilt(a, b) && newId !in a.indexes && (forall k | k in a.entries :: k.index in a.indexes)
    requires if at.Some? then Built(a.indexes, at.value) else status == Building
    ensures Unbuilt(EmbedForIndex(a, at, items, false, answer, setting, status, newId).st, b)
  {
    if answer.Answered? && items != [] {
      var (made, i) := if at.Some? then (a, at.value) else CreateIndex(a, setting, answer.dimension, status, newId);
      assert Unbuilt(made, b);
      PutInBuilding(made, b, i, items);
    }
  }

  // --- The requests ------------------------------------------------------------

  lemma SameBatch(pieces: Splitter, a: State, b: State, budget: int)
    requires Unbuilt(a, b) && Sane(a)
    ensures
      var at := WithStatus(a, Active);
      at == WithStatus(b, Active) && Batch(pieces, a, at, budget) == Batch(pieces, b, at, budget)
  {
    SameActive(a, b);
    var at := WithStatus(a, Active);
    forall t
      ensures HasHead(a.entries, at, t) <==> HasHead(b.entries, at, t)
    {
      assert at.Some? ==> SameAt(a.entries, b.entries, Key(at.value, t, 0));
    }
    SameHeadsSameMissing(a.order, a.entries, b.entries, at);
  }

  lemma IndexThoughtUnbuilt(pieces: Splitter, a: State, b: State, t: nat, c: Content, add: bool, newPieces: seq<Piece>,
                            answers: Answers, setting: Choice, newId: nat)
    requires Unbuilt(a, b) && Inv(pieces, a) && newId !in a.indexes && newPieces <= pieces(c)
    requires if add then t !in a.thoughts else t in a.thoughts && a.thoughts[t] == c
    ensures Unbuilt(IndexThought(pieces, a, t, c, add, newPieces, answers, setting, newId),
                    IndexThought(pieces, b, t, c, add, newPieces, answers, setting, newId))
  {
    SameBatch(pieces, a, b, BACKFILL_BATCH);
    var items := ActiveItems(pieces, a, t, newPieces);
    var sa, sb := if add then Stored(a, t, c) else a, if add then Stored(b, t, c) else b;
    if add {
      StoredKeeps(pieces, a, t, c);
    }
    SameRowsSameActive(a, sa);
    ActiveItemsCurrent(pieces, a, t, newPieces, sa.thoughts);
    ActiveCallUnbuilt(sa, sb, items, false, answers.active, setting, newId);
    EmbedKeeps(pieces, sa, WithStatus(a, Active), items, false, answers.active, setting, Active, newId);
    var fa := EmbedForIndex(sa, WithStatus(a, Active), items, false, answers.active, setting, Active, newId).st;
    var fb := EmbedForIndex(sb, WithStatus(b, Active), items, false, answers.active, setting, Active, newId).st;
    BuildingCallUnseen(pieces, fa, fb, t, newPieces, answers.building, setting, newId);
  }

  lemma SameRowsSameActive(a: State, b: State)
    requires a.indexes == b.indexes && OneEach(a.indexes)
    ensures WithStatus(a, Active) == WithStatus(b, Active)
  {
  }

  lemma BuildingCallUnseen(pieces: Splitter, a: State, b: State, t: nat, newPieces: seq<Piece>, answer: Answer,
                           setting: Choice, newId: nat)
    requires Unbuilt(a, b) && Inv(pieces, a)
    ensures Unbuilt(BuildingCall(a, t, newPieces, answer, setting, newId),
                    BuildingCall(b, t, newPieces, answer, setting, newId))
  {
    SameActive(a, b);
    var at := WithStatus(a, Building);
    if at.Some? && answer.Answered? {
      PutInBuilding(a, b, at.value, [Item(t, newPieces)]);
    }
  }

  lemma StaleUnbuilt(a: State, b: State, t: nat, c: Content, headOnly: bool)
    requires Unbuilt(a, b)
    ensures Unbuilt(WithoutStale(a.(thoughts := a.thoughts[t := c]), t, headOnly),
                    WithoutStale(b.(thoughts := b.thoughts[t := c]), t, headOnly))
  {
    forall k: Key | !Built(a.indexes, k.index)
      ensures SameAt(a.entries, b.entries, k)
      ensures (Stale(a.indexes, t, headOnly, k) <==> Stale(b.indexes, t, headOnly, k))
    {
    }
  }

  lemma UpdatedUnbuilt(pieces: Splitter, a: State, b: State, t: nat, c: Content, answers: Answers,
                       setting: Choice, newId: nat)
    requires Splits(pieces) && Unbuilt(a, b) && Inv(pieces, a) && t in a.thoughts && newId !in a.indexes
    ensures Unbuilt(Updated(pieces, a, t, c, answers, setting, newId),
                    Updated(pieces, b, t, c, answers, setting, newId))
  {
    var tagsOnly := SameButTags(a.thoughts[t], c);
    if !(tagsOnly && c.tags == a.thoughts[t].tags) {
      StaleGone(pieces, a, t, c);
      StaleUnbuilt(a, b, t, c, tagsOnly);
      var newPieces := if tagsOnly && pieces(c) != [] then pieces(c)[..1] else pieces(c);
      var ca := WithoutStale(a.(thoughts := a.thoughts[t := c]), t, tagsOnly);
      var cb := WithoutStale(b.(thoughts := b.thoughts[t := c]), t, tagsOnly);
      IndexThoughtUnbuilt(pieces, ca, cb, t, c, false, newPieces, answers, setting, newId);
    }
  }

  lemma SearchedUnbuilt(pieces: Splitter, a: State, b: State, answer: Answer, setting: Choice, newId: nat)
    requires Unbuilt(a, b) && Sane(a) && newId !in a.indexes
    ensures Unbuilt(Searched(pieces, a, answer, setting, newId), Searched(pieces, b, answer, setting, newId))
  {
    SameBatch(pieces, a, b, BACKFILL_BATCH);
    var at := WithStatus(a, Active);
    BatchIsPrefix(pieces, a, at, BACKFILL_BATCH);
    ActiveCallUnbuilt(a, b, ItemsOf(pieces, a.thoughts, Batch(pieces, a, at, BACKFILL_BATCH)), true, answer,
                      setting, newId);
  }

  lemma DeletedUnbuilt(a: State, b: State, t: nat)
    requires Unbuilt(a, b)
    ensures Unbuilt(Deleted(a, t), Deleted(b, t))
  {
    forall k: Key | !Built(a.indexes, k.index)
      ensures SameAt(a.entries, b.entries, k)
    {
    }
  }

  lemma RequestUnbuilt(pieces: Splitter, a: State, b: State, step: Step)
    requires Splits(pieces) && Unbuilt(a, b) && Inv(pieces, a) && Enabled(a, step) && IsRequest(step)
    ensures Enabled(b, step) && Unbuilt(Next(pieces, a, step), Next(pieces, b, step))
  {
    match step
    case Add(t, c, answers, setting, newId) =>
      IndexThoughtUnbuilt(pieces, a, b, t, c, true, pieces(c), answers, setting, newId);
    case Update(t, c, answers, setting, newId) =>
      UpdatedUnbuilt(pieces, a, b, t, c, answers, setting, newId);
    case Delete(t) =>
      DeletedUnbuilt(a, b, t);
    case Search(answer, setting, newId) =>
      SearchedUnbuilt(pieces, a, b, answer, setting, newId);
    case Fill(_, _, _, _) =>
    case Swap(_) =>
    case Drop(_) =>
  }

  lemma RebuildStepUnseen(pieces: Splitter, a: State, b: State, step: Step)
    requires Unbuilt(a, b) && Inv(pieces, a) && Enabled(a, step) && (step.Fill? || step.Drop?)
    ensures Unbuilt(Next(pieces, a, step), b)
  {
    if step.Fill? {
      BatchIsPrefix(pieces, a, step.at, REBUILD_BATCH);
      forall k | k in a.entries
        ensures k.index in a.indexes
      {
        EntryKnown(pieces, a, k);
      }
      var items := ItemsOf(pieces, a.thoughts, Batch(pieces, a, step.at, REBUILD_BATCH));
      BuildingUnseen(a, b, step.at, items, step.answer, step.setting, Building, step.newId);
    } else {
      DropUnseen(a, b, step.building);
    }
  }

  lemma DropUnseen(a: State, b: State, x: nat)
    requires Unbuilt(a, b) && OneEach(a.indexes) && IsBuilding(a, x)
    ensures Unbuilt(Dropped(a, x), b)
  {
    forall i | i in a.indexes && i != x
      ensures !Built(a.indexes, i)
    {
      assert Apart(a.indexes[i], a.indexes[x]);
    }
  }

  lemma RequestedNext(steps: seq<Step>)
    requires steps != []
    ensures Requested(steps) == if IsRequest(steps[0]) then [steps[0]] + Requested(steps[1..])
              else Requested(steps[1..])
  {
  }

  /** Until it swaps, a rebuild changes nothing of the other indexes: they are as
      the other requests alone would have left them. */
  lemma {:induction false} RebuildIsUnseen(pieces: Splitter, a: State, b: State, steps: seq<Step>, end: State)
      returns (other: State)
    requires Splits(pieces) && Inv(pieces, a) && Unbuilt(a, b) && Leads(pieces, a, steps, end) && NoSwap(steps)
    ensures Leads(pieces, b, Requested(steps), other) && Unbuilt(end, other)
    decreases |steps|
  {
    if steps == [] {
      return b;
    }
    var step := steps[0];
    RequestedNext(steps);
    StepKeeps(pieces, a, step);
    if IsRequest(step) {
      RequestUnbuilt(pieces, a, b, step);
      other := RebuildIsUnseen(pieces, Next(pieces, a, step), Next(pieces, b, step), steps[1..], end);
      LeadsFrom(pieces, b, step, Requested(steps[1..]), other);
    } else {
      RebuildStepUnseen(pieces, a, b, step);
      other := RebuildIsUnseen(pieces, Next(pieces, a, step), b, steps[1..], end);
    }
  }
}
