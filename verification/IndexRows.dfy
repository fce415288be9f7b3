/** What steps leave of the index rows, and runs put together. */
module IndexRows {
  import opened Wrappers
  import opened Chunking
  import opened IndexState
  import opened IndexInvariants
  import opened IndexRuns

  predicate IsRequest(step: Step) {
    step.Add? || step.Update? || step.Delete? || step.Search?
  }

  predicate OnlyRequests(steps: seq<Step>) {
    forall i | 0 <= i < |steps| :: IsRequest(steps[i])
  }

  /** The index rows are as they were, but for new ones that are active. */
  predicate RowsKept(st: State, end: State) {
    && (forall i | i in st.indexes :: i in end.indexes && end.indexes[i] == st.indexes[i])
    && (forall i | i in end.indexes :: i in st.indexes || end.indexes[i].status == Active)
  }

  lemma RequestKeepsRows(pieces: Splitter, st: State, step: Step)
    requires Splits(pieces) && Inv(pieces, st) && Enabled(st, step) && IsRequest(step)
    ensures RowsKept(st, Next(pieces, st, step))
  {
    match step
    case Add(t, c, answers, setting, newId) =>
      IndexThoughtRows(pieces, st, t, c, true, pieces(c), answers, setting, newId);
    case Update(t, c, answers, setting, newId) =>
      var tagsOnly := SameButTags(st.thoughts[t], c);
      var newPieces := if tagsOnly && pieces(c) != [] then pieces(c)[..1] else pieces(c);
      IndexThoughtRows(pieces, WithoutStale(st.(thoughts := st.thoughts[t := c]), t, tagsOnly), t, c, false, newPieces,
                       answers, setting, newId);
    case Search(answer, setting, newId) =>
      var active := WithStatus(st, Active);
      BatchIsPrefix(pieces, st, active, BACKFILL_BATCH);
      EmbedSpares(st, active, ItemsOf(pieces, st.thoughts, Batch(pieces, st, active, BACKFILL_BATCH)), true, answer,
                  setting, Active, newId);
    case Delete(t) =>
    case Fill(_, _, _, _) =>
    case Swap(_) =>
    case Drop(_) =>
  }

  lemma IndexThoughtRows(pieces: Splitter, st: State, t: nat, c: Content, add: bool, newPieces: seq<Piece>,
                         answers: Answers, setting: Choice, newId: nat)
    requires Known(st.thoughts, st.order) && newId !in st.indexes
    ensures RowsKept(st, IndexState.IndexThought(pieces, st, t, c, add, newPieces, answers, setting, newId))
  {
    var stored := if add then Stored(st, t, c) else st;
    var items := ActiveItems(pieces, st, t, newPieces);
    EmbedSpares(stored, WithStatus(st, Active), items, false, answers.active, setting, Active, newId);
    var first := IndexState.EmbedForIndex(stored, WithStatus(st, Active), items, false, answers.active, setting,
                                          Active, newId).st;
    var b := WithStatus(first, Building);
    if b.Some? {
      ExistingSpares(first, b, [Item(t, newPieces)], answers.building, setting, newId);
    }
  }

  lemma ExistingSpares(st: State, at: Option<nat>, items: seq<Item>, answer: Answer, setting: Choice, newId: nat)
    requires at.Some? && at.value in st.indexes
    ensures IndexState.EmbedForIndex(st, at, items, false, answer, setting, Active, newId).st.indexes == st.indexes
  {
  }

  lemma {:induction false} RequestsKeepRows(pieces: Splitter, st: State, steps: seq<Step>, end: State)
    requires Splits(pieces) && Inv(pieces, st) && Leads(pieces, st, steps, end) && OnlyRequests(steps)
    ensures Inv(pieces, end) && RowsKept(st, end)
    decreases |steps|
  {
    if steps != [] {
      StepKeeps(pieces, st, steps[0]);
      RequestKeepsRows(pieces, st, steps[0]);
      RequestsKeepRows(pieces, Next(pieces, st, steps[0]), steps[1..], end);
    }
  }

  // --- Runs put together -------------------------------------------------------

  lemma LeadsFrom(pieces: Splitter, st: State, step: Step, rest: seq<Step>, end: State)
    requires Known(st.thoughts, st.order) && Enabled(st, step) && Leads(pieces, Next(pieces, st, step), rest, end)
    ensures Leads(pieces, st, [step] + rest, end)
  {
    assert ([step] + rest)[1..] == rest;
  }

  lemma HeadApart<T>(first: seq<T>, second: seq<T>)
    requires first != []
    ensures [first[0]] + (first[1..] + second) == first + second
  {
  }

  lemma {:induction false} LeadsJoin(pieces: Splitter, st: State, first: seq<Step>, mid: State,
                                     second: seq<Step>, end: State)
    requires Leads(pieces, st, first, mid) && Leads(pieces, mid, second, end)
    ensures Leads(pieces, st, first + second, end)
    decreases |first|
  {
    if first == [] {
      assert first + second == second;
    } else {
      var step, rest := first[0], first[1..];
      var next := Next(pieces, st, step);
      LeadsJoin(pieces, next, rest, mid, second, end);
      LeadsFrom(pieces, st, step, rest + second, end);
      HeadApart(first, second);
    }
  }

  lemma OneStep(pieces: Splitter, st: State, step: Step)
    requires Known(st.thoughts, st.order) && Enabled(st, step)
    ensures Leads(pieces, st, [step], Next(pieces, st, step))
  {
    assert [step][1..] == [];
    assert Leads(pieces, Next(pieces, st, step), [], Next(pieces, st, step));
  }

  lemma LeadsThen(pieces: Splitter, st: State, steps: seq<Step>, mid: State, step: Step)
    requires Leads(pieces, st, steps, mid) && Known(mid.thoughts, mid.order) && Enabled(mid, step)
    ensures Leads(pieces, st, steps + [step], Next(pieces, mid, step))
  {
    OneStep(pieces, mid, step);
    LeadsJoin(pieces, st, steps, mid, [step], Next(pieces, mid, step));
  }

  lemma {:induction false} SameHeadsSameMissing(order: seq<nat>, a: Entries, b: Entries, at: Option<nat>)
    requires forall t :: HasHead(a, at, t) <==> HasHead(b, at, t)
    ensures Missing(order, a, at) == Missing(order, b, at)
    decreases |order|
  {
    if order != [] {
      SameHeadsSameMissing(order[1..], a, b, at);
    }
  }

  // --- New rows ----------------------------------------------------------------

  /** Rows that are there stay; a new one has the version after the latest. */
  ghost predicate Grown(rows: map<nat, Index>, after: map<nat, Index>) {
    && (forall i | i in rows :: i in after && after[i] == rows[i])
    && (forall i | i in after :: i in rows || after[i].version == LatestVersion(rows) + 1)
  }

  lemma EmbedGrows(st: State, at: Option<nat>, items: seq<Item>, query: bool, answer: Answer, setting: Choice,
                   status: Status, newId: nat)
    requires if at.Some? then at.value in st.indexes else newId !in st.indexes
    ensures Grown(st.indexes, EmbedForIndex(st, at, items, query, answer, setting, status, newId).st.indexes)
  {
  }

  lemma IndexThoughtGrows(pieces: Splitter, st: State, t: nat, c: Content, add: bool, newPieces: seq<Piece>,
                          answers: Answers, setting: Choice, newId: nat)
    requires Known(st.thoughts, st.order) && newId !in st.indexes
    ensures Grown(st.indexes, IndexThought(pieces, st, t, c, add, newPieces, answers, setting, newId).indexes)
  {
    var stored := if add then Stored(st, t, c) else st;
    var items := ActiveItems(pieces, st, t, newPieces);
    EmbedGrows(stored, WithStatus(st, Active), items, false, answers.active, setting, Active, newId);
    var first := EmbedForIndex(stored, WithStatus(st, Active), items, false, answers.active, setting, Active, newId).st;
    var b := WithStatus(first, Building);
    if b.Some? {
      ExistingSpares(first, b, [Item(t, newPieces)], answers.building, setting, newId);
    }
  }

  lemma StepGrows(pieces: Splitter, st: State, step: Step)
    requires Sane(st) && Enabled(st, step) && !step.Swap? && !step.Drop?
    ensures Grown(st.indexes, Next(pieces, st, step).indexes)
  {
    match step
    case Add(t, c, answers, setting, newId) =>
      IndexThoughtGrows(pieces, st, t, c, true, pieces(c), answers, setting, newId);
    case Update(t, c, answers, setting, newId) =>
      var tagsOnly := SameButTags(st.thoughts[t], c);
      var newPieces := if tagsOnly && pieces(c) != [] then pieces(c)[..1] else pieces(c);
      IndexThoughtGrows(pieces, WithoutStale(st.(thoughts := st.thoughts[t := c]), t, tagsOnly), t, c, false, newPieces,
                        answers, setting, newId);
    case Search(answer, setting, newId) =>
      var active := WithStatus(st, Active);
      BatchIsPrefix(pieces, st, active, BACKFILL_BATCH);
      EmbedGrows(st, active, ItemsOf(pieces, st.thoughts, Batch(pieces, st, active, BACKFILL_BATCH)), true, answer,
                 setting, Active, newId);
    case Fill(at, answer, setting, newId) =>
      BatchIsPrefix(pieces, st, at, REBUILD_BATCH);
      EmbedGrows(st, at, ItemsOf(pieces, st.thoughts, Batch(pieces, st, at, REBUILD_BATCH)), false, answer, setting,
                 Building, newId);
    case Delete(t) =>
    case Swap(_) =>
    case Drop(_) =>
  }
}
