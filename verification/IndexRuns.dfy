/** Whole runs of requests on the search indexes, and what they keep sound. */
module IndexRuns {
  import opened Wrappers
  import Text
  import opened Chunking
  import opened Embeddings
  import opened IndexState
  import opened IndexInvariants

  /** The steps lead from one state to the other, each of them enabled when it happens. */
  ghost predicate Leads(pieces: Splitter, st: State, steps: seq<Step>, end: State)
    decreases |steps|
  {
    if steps == [] then st == end
    else
      && Known(st.thoughts, st.order) && Enabled(st, steps[0])
      && Leads(pieces, Next(pieces, st, steps[0]), steps[1..], end)
  }

  lemma {:induction false} RunKeeps(pieces: Splitter, st: State, steps: seq<Step>, end: State)
    requires Splits(pieces) && Inv(pieces, st) && Leads(pieces, st, steps, end)
    ensures Inv(pieces, end)
    decreases |steps|
  {
    if steps != [] {
      StepKeeps(pieces, st, steps[0]);
      RunKeeps(pieces, Next(pieces, st, steps[0]), steps[1..], end);
    }
  }

  lemma NothingIsRight(pieces: Splitter)
    ensures Inv(pieces, NOTHING)
  {
  }

  lemma ChunkerSplits()
    ensures Splits(Chunking.Pieces)
  {
    forall c: Content
      ensures |Chunking.Pieces(c)| >= 1 && forall i | 0 <= i < |Chunking.Pieces(c)| :: Chunking.Pieces(c)[i].chunk == i
    {
      forall i: nat | i < |Chunking.Pieces(c)|
        ensures Chunking.Pieces(c)[i].chunk == i
      {
        PiecesPointAtText(c, i);
      }
    }
    forall c: Content, d: Content | SameButTags(c, d)
      ensures |Chunking.Pieces(c)| == |Chunking.Pieces(d)|
      ensures forall i | 1 <= i < |Chunking.Pieces(c)| :: Chunking.Pieces(c)[i] == Chunking.Pieces(d)[i]
    {
      TagsChangeHeadOnly(c, d.tags);
      assert c.(tags := d.tags) == d;
    }
  }

  /** In every state the requests can reach, in any order and with any of their
      calls failing, an entry belongs to an index in use and to a thought there is;
      it holds the vector that index's model gives one of the thought's pieces as
      they are now, and its range is where the raw text says that piece. */
  lemma IndexesAreSound(steps: seq<Step>, st: State, k: Key)
    requires Leads(Chunking.Pieces, NOTHING, steps, st) && k in st.entries
    ensures k.index in st.indexes && st.indexes[k.index].status != Retired && k.thought in st.thoughts
    ensures
      var c, e, index := st.thoughts[k.thought], st.entries[k], st.indexes[k.index];
      && k.chunk < |Chunking.Pieces(c)|
      && e.vector == Vector(index.choice.model, Chunking.Pieces(c)[k.chunk].text, index.dimension)
      && (k.chunk == 0 ==> e.range == None && e.vector.text == HeadText(c))
      && (k.chunk > 0 ==>
            && c.rawText.Some? && e.range.Some? && WellCut(c.rawText.value, e.range.value)
            && e.vector.text == c.rawText.value[e.range.value.start..e.range.value.end])
  {
    ChunkerSplits();
    NothingIsRight(Chunking.Pieces);
    RunKeeps(Chunking.Pieces, NOTHING, steps, st);
    assert Right(Chunking.Pieces, st.thoughts, st.indexes, k, st.entries[k]);
    PiecesPointAtText(st.thoughts[k.thought], k.chunk);
  }

  /** At most one index is active and one building, and the versions of the indexes there are differ. */
  lemma OneOfEach(steps: seq<Step>, st: State, i: nat, j: nat)
    requires Leads(Chunking.Pieces, NOTHING, steps, st) && i in st.indexes && j in st.indexes && i != j
    ensures st.indexes[i].version != st.indexes[j].version
    ensures st.indexes[i].status == st.indexes[j].status ==> st.indexes[i].status == Retired
  {
    ChunkerSplits();
    NothingIsRight(Chunking.Pieces);
    RunKeeps(Chunking.Pieces, NOTHING, steps, st);
    assert Apart(st.indexes[i], st.indexes[j]);
  }

  // --- What one call changes ---------------------------------------------------

  lemma {:induction false} PutAllKeys(entries: Entries, at: nat, index: Index, items: seq<Item>, k: Key)
    ensures k in PutAll(entries, at, index, items) <==>
            k in entries || exists n :: 0 <= n < |items| && Writes(at, items[n], k)
    decreases |items|
  {
    if items != [] {
      var next := Put(entries, at, index, items[0]);
      PutLookup(entries, at, index, items[0], k);
      PutAllKeys(next, at, index, items[1..], k);
      if Writes(at, items[0], k) {
        assert 0 <= 0 < |items| && Writes(at, items[0], k);
      }
      if n :| 0 <= n < |items[1..]| && Writes(at, items[1..][n], k) {
        assert Writes(at, items[n + 1], k);
      }
      if n :| 0 <= n < |items| && Writes(at, items[n], k) {
        assert n > 0 ==> items[n] == items[1..][n - 1];
      }
    }
  }

  lemma EntryKnown(pieces: Splitter, st: State, k: Key)
    requires Sound(pieces, st)
    ensures k in st.entries ==>
              && k.index in st.indexes && st.indexes[k.index].status != Retired
              && k.thought in st.thoughts && k.chunk < |pieces(st.thoughts[k.thought])|
  {
  }

  /** The call for an index, or for a new one if there is none, writes its items' entries. */
  predicate CallWrites(st: State, at: Option<nat>, answer: Answer)
    requires at.Some? ==> at.value in st.indexes
  {
    answer.Answered? && (at.Some? ==> answer.dimension == st.indexes[at.value].dimension)
  }

  lemma CallOk(st: State, at: Option<nat>, items: seq<Item>, answer: Answer, setting: Choice, newId: nat)
    requires items != []
    requires (if at.Some? then at.value in st.indexes else newId !in st.indexes && WithStatus(st, Active) == None)
    ensures
      var e := EmbedForIndex(st, at, items, false, answer, setting, Active, newId);
      && (e.ok <==> CallWrites(st, at, answer))
      && (e.ok ==> e.at == Some(at.GetOr(newId)))
      && (e.ok ==> e.st.entries == PutAll(st.entries, at.GetOr(newId), e.st.indexes[at.GetOr(newId)], items))
      && (!e.ok ==> e.st.entries == st.entries)
      && e.st.thoughts == st.thoughts && e.st.order == st.order
  {
  }

  lemma BuildingStays(st: State, e: Embed, newId: nat)
    requires OneEach(e.st.indexes) && newId !in st.indexes
    requires forall i | i in st.indexes :: i in e.st.indexes && e.st.indexes[i] == st.indexes[i]
    requires forall i | i in e.st.indexes :: i in st.indexes || (i == newId && e.st.indexes[i].status == Active)
    ensures WithStatus(e.st, Building) == WithStatus(st, Building)
  {
  }

  lemma EmbedSpares(st: State, at: Option<nat>, items: seq<Item>, query: bool, answer: Answer, setting: Choice,
                    status: Status, newId: nat)
    requires if at.Some? then at.value in st.indexes else newId !in st.indexes
    ensures
      var e := EmbedForIndex(st, at, items, query, answer, setting, status, newId);
      && (forall i | i in st.indexes :: i in e.st.indexes && e.st.indexes[i] == st.indexes[i])
      && (forall i | i in e.st.indexes :: i in st.indexes || (i == newId && e.st.indexes[i].status == status))
      && (forall k | k in st.entries :: k in e.st.entries)
      && (forall k | k in e.st.entries && e.at != Some(k.index) :: k in st.entries)
      && (at.Some? ==> e.at == at)
  {
    var e := EmbedForIndex(st, at, items, query, answer, setting, status, newId);
    forall k: Key
      ensures k in st.entries ==> k in e.st.entries
      ensures k in e.st.entries && e.at != Some(k.index) ==> k in st.entries
    {
      if e.ok && e.at.Some? && (query || items != []) {
        PutAllKeys(st.entries, e.at.value, e.st.indexes[e.at.value], items, k);
      }
    }
  }

  lemma SameRowsSameStatuses(a: State, b: State)
    requires a.indexes == b.indexes && OneEach(a.indexes)
    ensures WithStatus(a, Active) == WithStatus(b, Active) && WithStatus(a, Building) == WithStatus(b, Building)
  {
  }

  lemma RefusedAddStoresOnly(pieces: Splitter, t: nat, c: Content, setting: Choice, newId: nat)
    ensures Added(pieces, NOTHING, t, c, Answers(Refused, Refused), setting, newId) ==
            State([t], map[t := c], map[], map[])
  {
    assert Batch(pieces, NOTHING, None, BACKFILL_BATCH) == [];
  }

  lemma TwoSteps(pieces: Splitter, st: State, first: Step, second: Step)
    requires Inv(pieces, st) && Enabled(st, first)
    requires Inv(pieces, Next(pieces, st, first)) && Enabled(Next(pieces, st, first), second)
    ensures Leads(pieces, st, [first, second], Next(pieces, Next(pieces, st, first), second))
  {
    assert [first, second][1..] == [second] && [second][1..] == [];
    var last := Next(pieces, Next(pieces, st, first), second);
    assert Leads(pieces, last, [], last);
    assert Leads(pieces, Next(pieces, st, first), [second], last);
  }

  // --- A rebuild does not disturb search ---------------------------------------

  /** Until the swap, a rebuild's steps leave the active index and its entries as they were. */
  lemma RebuildSparesActive(pieces: Splitter, st: State, step: Step, a: nat)
    requires Inv(pieces, st) && Enabled(st, step) && (step.Fill? || step.Drop?)
    ensures
      var after := Next(pieces, st, step);
      && (a in st.indexes && st.indexes[a].status == Active ==>
            && a in after.indexes && after.indexes[a] == st.indexes[a]
            && forall k: Key | k.index == a ::
              (k in after.entries <==> k in st.entries) && (k in st.entries ==> after.entries[k] == st.entries[k]))
      && (a in after.indexes && after.indexes[a].status == Active ==> a in st.indexes && st.indexes[a].status == Active)
      && after.thoughts == st.thoughts
  {
    if step.Fill? {
      BatchIsPrefix(pieces, st, step.at, REBUILD_BATCH);
      var items := ItemsOf(pieces, st.thoughts, Batch(pieces, st, step.at, REBUILD_BATCH));
      EmbedSpares(st, step.at, items, false, step.answer, step.setting, Building, step.newId);
      FillTarget(st, step.at, items, step.answer, step.setting, step.newId);
      StepSoundFor(pieces, st, step);
      forall k: Key | k.index == a && k in st.entries && a in st.indexes && st.indexes[a].status == Active
        ensures Next(pieces, st, step).entries[k] == st.entries[k]
      {
        assert Right(pieces, st.thoughts, st.indexes, k, st.entries[k]);
        assert Right(pieces, st.thoughts, Next(pieces, st, step).indexes, k, Next(pieces, st, step).entries[k]);
      }
    }
  }

  lemma FillTarget(st: State, at: Option<nat>, items: seq<Item>, answer: Answer, setting: Choice, newId: nat)
    requires OneEach(st.indexes)
    requires if at.Some? then IsBuilding(st, at.value) else newId !in st.indexes
    ensures
      var e := EmbedForIndex(st, at, items, false, answer, setting, Building, newId);
      e.at.Some? ==> IsBuilding(e.st, e.at.value)
  {
  }

  lemma StepSoundFor(pieces: Splitter, st: State, step: Step)
    requires Inv(pieces, st) && Enabled(st, step) && step.Fill?
    ensures Inv(pieces, Next(pieces, st, step)) && Next(pieces, st, step).thoughts == st.thoughts
  {
    BatchIsPrefix(pieces, st, step.at, REBUILD_BATCH);
    var batch := Batch(pieces, st, step.at, REBUILD_BATCH);
    ItemsCurrent(pieces, st.thoughts, st.thoughts, batch);
    EmbedKeeps(pieces, st, step.at, ItemsOf(pieces, st.thoughts, batch), false, step.answer, step.setting, Building,
               step.newId);
  }

  /** A retired index stays as it is, and never has an entry again. */
  lemma {:induction false} RetiredForGood(pieces: Splitter, st: State, steps: seq<Step>, end: State, i: nat)
    requires Splits(pieces) && Inv(pieces, st) && Leads(pieces, st, steps, end)
    requires i in st.indexes && st.indexes[i].status == Retired
    ensures i in end.indexes && end.indexes[i] == st.indexes[i]
    ensures forall k | k in end.entries :: k.index != i
    decreases |steps|
  {
    if steps == [] {
      forall k | k in end.entries
        ensures k.index != i
      {
        EntryKnown(pieces, st, k);
      }
    } else {
      StepKeeps(pieces, st, steps[0]);
      RetiredUntouched(pieces, st, steps[0], i);
      RetiredForGood(pieces, Next(pieces, st, steps[0]), steps[1..], end, i);
    }
  }

  lemma IndexThoughtSpares(pieces: Splitter, st: State, t: nat, c: Content, add: bool, newPieces: seq<Piece>,
                           answers: Answers, setting: Choice, newId: nat, i: nat)
    requires Known(st.thoughts, st.order) && newId !in st.indexes && i in st.indexes
    ensures
      var after := IndexThought(pieces, st, t, c, add, newPieces, answers, setting, newId);
      i in after.indexes && after.indexes[i] == st.indexes[i]
  {
    var items := ActiveItems(pieces, st, t, newPieces);
    var stored := if add then Stored(st, t, c) else st;
    EmbedSpares(stored, WithStatus(st, Active), items, false, answers.active, setting, Active, newId);
    var first := EmbedForIndex(stored, WithStatus(st, Active), items, false, answers.active, setting, Active, newId).st;
    if WithStatus(first, Building).Some? {
      EmbedSpares(first, WithStatus(first, Building), [Item(t, newPieces)], false, answers.building, setting,
                  Active, newId);
    }
  }

  lemma BatchSpares(pieces: Splitter, st: State, at: Option<nat>, batch: seq<nat>, query: bool, answer: Answer,
                    setting: Choice, status: Status, newId: nat, i: nat)
    requires Known(st.thoughts, batch) && (at.Some? ==> at.value in st.indexes) && newId !in st.indexes
    requires i in st.indexes
    ensures
      var after := EmbedForIndex(st, at, ItemsOf(pieces, st.thoughts, batch), query, answer, setting, status, newId).st;
      i in after.indexes && after.indexes[i] == st.indexes[i]
  {
    EmbedSpares(st, at, ItemsOf(pieces, st.thoughts, batch), query, answer, setting, status, newId);
  }

  lemma RetiredUntouched(pieces: Splitter, st: State, step: Step, i: nat)
    requires Splits(pieces) && Inv(pieces, st) && Enabled(st, step) && i in st.indexes
    requires st.indexes[i].status == Retired
    ensures i in Next(pieces, st, step).indexes && Next(pieces, st, step).indexes[i] == st.indexes[i]
  {
    match step
    case Add(t, c, answers, setting, newId) =>
      IndexThoughtSpares(pieces, st, t, c, true, pieces(c), answers, setting, newId, i);
    case Update(t, c, answers, setting, newId) =>
      var tagsOnly := SameButTags(st.thoughts[t], c);
      var newPieces := if tagsOnly && pieces(c) != [] then pieces(c)[..1] else pieces(c);
      IndexThoughtSpares(pieces, WithoutStale(st.(thoughts := st.thoughts[t := c]), t, tagsOnly), t, c, false,
                         newPieces, answers, setting, newId, i);
    case Search(answer, setting, newId) =>
      BatchIsPrefix(pieces, st, WithStatus(st, Active), BACKFILL_BATCH);
      var batch := Batch(pieces, st, WithStatus(st, Active), BACKFILL_BATCH);
      BatchSpares(pieces, st, WithStatus(st, Active), batch, true, answer, setting, Active, newId, i);
    case Fill(at, answer, setting, newId) =>
      BatchIsPrefix(pieces, st, at, REBUILD_BATCH);
      BatchSpares(pieces, st, at, Batch(pieces, st, at, REBUILD_BATCH), false, answer, setting, Building, newId, i);
    case Delete(t) =>
    case Swap(b) =>
    case Drop(b) =>
  }
}
