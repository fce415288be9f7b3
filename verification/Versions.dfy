/** The versions that indexes get, and when one is given twice. */
module Versions {
  import opened Wrappers
  import opened Chunking
  import opened IndexState
  import opened IndexInvariants
  import opened IndexRuns
  import opened IndexProgress
  import opened IndexRows

  /** With no index, every thought is missing. */
  lemma SomethingToFill(pieces: Splitter, st: State)
    requires Splits(pieces) && Known(st.thoughts, st.order) && st.order != []
    ensures Batch(pieces, st, None, REBUILD_BATCH) != []
    ensures Known(st.thoughts, Batch(pieces, st, None, REBUILD_BATCH))
  {
    MissingMeaning(st.order, st.entries, None);
    assert st.order[0] in Missing(st.order, st.entries, None);
    BatchIsOldestThatFit(pieces, st, None, REBUILD_BATCH);
    BatchIsPrefix(pieces, st, None, REBUILD_BATCH);
  }

  lemma CallMakesIndex(st: State, items: seq<Item>, dimension: nat, setting: Choice, newId: nat)
    requires items != [] && WithStatus(st, Building) == None
    ensures
      var after := EmbedForIndex(st, None, items, false, Answered(dimension), setting, Building, newId).st;
      after.indexes == st.indexes[newId := Index(LatestVersion(st.indexes) + 1, setting, dimension, Building)]
  {
  }

  /** The index a rebuild's first batch makes gets the version after the latest. */
  lemma NewVersion(pieces: Splitter, st: State, dimension: nat, setting: Choice, newId: nat)
    requires Splits(pieces) && Inv(pieces, st) && st.order != [] && WithStatus(st, Building) == None
    requires newId !in st.indexes
    ensures
      var after := Filled(pieces, st, None, Answered(dimension), setting, newId).st;
      after.indexes == st.indexes[newId := Index(LatestVersion(st.indexes) + 1, setting, dimension, Building)]
  {
    SomethingToFill(pieces, st);
    var items := ItemsOf(pieces, st.thoughts, Batch(pieces, st, None, REBUILD_BATCH));
    CallMakesIndex(st, items, dimension, setting, newId);
  }

  /** Versions differ among the indexes there are, but not over time: a dropped
      building index's version is given again to the next one. */
  lemma VersionGivenAgain(pieces: Splitter, st: State, d: nat, e: nat, setting: Choice, i: nat, j: nat)
    requires Splits(pieces) && Inv(pieces, st) && st.order != [] && WithStatus(st, Building) == None
    requires i !in st.indexes && j !in st.indexes && i != j
    ensures
      var first := Filled(pieces, st, None, Answered(d), setting, i).st;
      var second := Filled(pieces, Dropped(first, i), None, Answered(e), setting, j).st;
      i in first.indexes && j in second.indexes && first.indexes[i].version == second.indexes[j].version
  {
    NewVersion(pieces, st, d, setting, i);
    var dropped := MadeAndDropped(pieces, st, d, setting, i);
    NewVersion(pieces, dropped, e, setting, j);
  }

  /** An index made and dropped leaves the rows as they were. */
  lemma MadeAndDropped(pieces: Splitter, st: State, d: nat, setting: Choice, i: nat) returns (dropped: State)
    requires Splits(pieces) && Inv(pieces, st) && st.order != [] && WithStatus(st, Building) == None && i !in st.indexes
    ensures dropped == Dropped(Filled(pieces, st, None, Answered(d), setting, i).st, i)
    ensures Inv(pieces, dropped) && dropped.indexes == st.indexes && dropped.order == st.order
    ensures WithStatus(dropped, Building) == None
  {
    NewVersion(pieces, st, d, setting, i);
    StepSoundFor(pieces, st, Fill(None, Answered(d), setting, i));
    FillKeepsOrder(pieces, st, None, Answered(d), setting, i);
    var first := Filled(pieces, st, None, Answered(d), setting, i).st;
    DroppedKeeps(pieces, first, i);
    dropped := Dropped(first, i);
    MakeAndDrop(st.indexes, i, first.indexes[i]);
    SameRowsSameStatus(st, dropped);
  }

  lemma MakeAndDrop(rows: map<nat, Index>, i: nat, row: Index)
    requires i !in rows
    ensures rows[i := row] - {i} == rows
  {
  }

  predicate HasVersion(st: State, v: nat) {
    exists i :: i in st.indexes && st.indexes[i].version == v
  }

  predicate Beyond(st: State, i: nat, v: nat) {
    i in st.indexes && st.indexes[i].status != Building && st.indexes[i].version > v
  }

  /** No index has the version, and one that is there to stay has a higher one. */
  ghost predicate Passed(st: State, v: nat) {
    && !HasVersion(st, v)
    && exists i :: Beyond(st, i, v)
  }

  lemma GrownKeepsPassed(st: State, after: State, v: nat)
    requires Grown(st.indexes, after.indexes) && Passed(st, v)
    ensures Passed(after, v)
  {
    var i :| Beyond(st, i, v);
    assert LatestVersion(st.indexes) > v;
    assert Beyond(after, i, v);
  }

  lemma SwapKeepsPassed(st: State, b: nat, v: nat)
    requires IsBuilding(st, b) && Passed(st, v)
    ensures Passed(Swapped(st, b), v)
  {
    var i :| Beyond(st, i, v);
    assert Beyond(Swapped(st, b), i, v);
    forall j | j in Swapped(st, b).indexes
      ensures Swapped(st, b).indexes[j].version != v
    {
      assert st.indexes[j].version != v;
    }
  }

  lemma DropKeepsPassed(st: State, b: nat, v: nat)
    requires IsBuilding(st, b) && Passed(st, v)
    ensures Passed(Dropped(st, b), v)
  {
    var i :| Beyond(st, i, v);
    assert Beyond(Dropped(st, b), i, v);
  }

  lemma StepKeepsPassed(pieces: Splitter, st: State, step: Step, v: nat)
    requires Sane(st) && Enabled(st, step) && Passed(st, v)
    ensures Passed(Next(pieces, st, step), v)
  {
    if step.Swap? {
      SwapKeepsPassed(st, step.building, v);
    } else if step.Drop? {
      DropKeepsPassed(st, step.building, v);
    } else {
      StepGrows(pieces, st, step);
      GrownKeepsPassed(st, Next(pieces, st, step), v);
    }
  }

  lemma {:induction false} RunKeepsPassed(pieces: Splitter, st: State, steps: seq<Step>, end: State, v: nat)
    requires Splits(pieces) && Inv(pieces, st) && Leads(pieces, st, steps, end) && Passed(st, v)
    ensures Passed(end, v)
    decreases |steps|
  {
    if steps != [] {
      StepKeeps(pieces, st, steps[0]);
      StepKeepsPassed(pieces, st, steps[0], v);
      RunKeepsPassed(pieces, Next(pieces, st, steps[0]), steps[1..], end, v);
    }
  }

  lemma DroppedPassed(pieces: Splitter, st: State, b: nat)
    requires Inv(pieces, st) && IsBuilding(st, b) && st.indexes[b].version < LatestVersion(st.indexes)
    ensures Passed(Dropped(st, b), st.indexes[b].version)
  {
    var i :| i in st.indexes && st.indexes[i].version == LatestVersion(st.indexes);
    assert Apart(st.indexes[i], st.indexes[b]);
    assert Beyond(Dropped(st, b), i, st.indexes[b].version);
    forall j | j in Dropped(st, b).indexes
      ensures st.indexes[j].version != st.indexes[b].version
    {
      assert Apart(st.indexes[j], st.indexes[b]);
    }
  }

  /** Some requests and rebuilds give this version to an index. */
  ghost predicate CanGive(pieces: Splitter, st: State, v: nat) {
    exists steps, end :: Leads(pieces, st, steps, end) && HasVersion(end, v)
  }

  lemma {:induction false} NewKey(keys: set<nat>) returns (k: nat)
    ensures forall i | i in keys :: i < k
    decreases keys
  {
    if keys == {} {
      return 0;
    }
    var i :| i in keys;
    var low := NewKey(keys - {i});
    assert forall j | j in keys :: j == i || j in keys - {i};
    k := if low <= i then i + 1 else low;
  }

  lemma CanGiveLater(pieces: Splitter, st: State, steps: seq<Step>, mid: State, v: nat)
    requires Leads(pieces, st, steps, mid) && CanGive(pieces, mid, v)
    ensures CanGive(pieces, st, v)
  {
    var more, end :| Leads(pieces, mid, more, end) && HasVersion(end, v);
    LeadsJoin(pieces, st, steps, mid, more, end);
  }

  /** A building index can be filled. */
  lemma {:induction false} CanFill(pieces: Splitter, st: State, b: nat, setting: Choice)
      returns (steps: seq<Step>, end: State)
    requires Splits(pieces) && Inv(pieces, st) && IsBuilding(st, b)
    ensures Leads(pieces, st, steps, end) && Inv(pieces, end) && end.indexes == st.indexes && end.order == st.order
    ensures Missing(end.order, end.entries, Some(b)) == []
    decreases |Missing(st.order, st.entries, Some(b))|
  {
    if Missing(st.order, st.entries, Some(b)) == [] {
      return [], st;
    }
    var newId := NewKey(st.indexes.Keys);
    var answer := Answered(st.indexes[b].dimension);
    var step := Fill(Some(b), answer, setting, newId);
    FillMakesProgress(pieces, st, Some(b), answer, setting, newId);
    StepKeeps(pieces, st, step);
    FillOk(pieces, st, b, setting, newId);
    var next := Next(pieces, st, step);
    steps, end := CanFill(pieces, next, b, setting);
    OneStep(pieces, st, step);
    LeadsJoin(pieces, st, [step], next, steps, end);
    steps := [step] + steps;
  }

  lemma FillOk(pieces: Splitter, st: State, b: nat, setting: Choice, newId: nat)
    requires Known(st.thoughts, st.order) && IsBuilding(st, b)
    ensures
      var e := Filled(pieces, st, Some(b), Answered(st.indexes[b].dimension), setting, newId);
      e.ok && e.at == Some(b) && e.st.indexes == st.indexes && e.st.order == st.order
  {
  }

  lemma SwapKeepsVersions(pieces: Splitter, st: State, b: nat)
    requires Inv(pieces, st) && IsBuilding(st, b)
    ensures Swapped(st, b).indexes.Keys == st.indexes.Keys
    ensures forall i | i in st.indexes :: Swapped(st, b).indexes[i].version == st.indexes[i].version
    ensures WithStatus(Swapped(st, b), Building) == None
  {
    var after := Swapped(st, b);
    assert after.indexes[b].status == Active;
    forall i | i in after.indexes
      ensures after.indexes[i].status != Building
    {
      assert i != b ==> Apart(st.indexes[i], st.indexes[b]);
    }
  }

  /** A new building index, with the next version. */
  lemma NextVersion(pieces: Splitter, st: State, setting: Choice) returns (b: nat, made: State)
    requires Splits(pieces) && Inv(pieces, st) && st.order != [] && WithStatus(st, Building) == None
    ensures Inv(pieces, made) && IsBuilding(made, b) && made.order == st.order
    ensures made.indexes[b].version == LatestVersion(made.indexes) == LatestVersion(st.indexes) + 1
    ensures exists steps :: Leads(pieces, st, steps, made)
  {
    b := NewKey(st.indexes.Keys);
    var step := Fill(None, Answered(1), setting, b);
    made := Next(pieces, st, step);
    NewVersion(pieces, st, 1, setting, b);
    StepSoundFor(pieces, st, step);
    OneStep(pieces, st, step);
    FillKeepsOrder(pieces, st, None, Answered(1), setting, b);
  }

  /** It can be filled and swapped in. */
  lemma ThenSwapped(pieces: Splitter, st: State, b: nat, setting: Choice) returns (after: State)
    requires Splits(pieces) && Inv(pieces, st) && IsBuilding(st, b)
    ensures Inv(pieces, after) && after.order == st.order && WithStatus(after, Building) == None
    ensures LatestVersion(after.indexes) == LatestVersion(st.indexes)
    ensures exists steps :: Leads(pieces, st, steps, after)
  {
    var full := FilledAndSwapped(pieces, st, b, setting);
    after := Swapped(full, b);
    SwappedKeeps(pieces, full, b);
    SwapKeepsVersions(pieces, full, b);
    SameLatest(st.indexes, after.indexes);
    SwapKeepsOrder(full, b);
  }

  lemma FilledAndSwapped(pieces: Splitter, st: State, b: nat, setting: Choice) returns (full: State)
    requires Splits(pieces) && Inv(pieces, st) && IsBuilding(st, b)
    ensures Inv(pieces, full) && full.indexes == st.indexes && full.order == st.order
    ensures exists steps :: Leads(pieces, st, steps, Swapped(full, b))
  {
    var steps;
    steps, full := CanFill(pieces, st, b, setting);
    LeadsThen(pieces, st, steps, full, Swap(b));
  }

  lemma SwapKeepsOrder(st: State, b: nat)
    requires b in st.indexes
    ensures Swapped(st, b).order == st.order
  {
  }

  lemma SameLatest(rows: map<nat, Index>, after: map<nat, Index>)
    requires after.Keys == rows.Keys && forall i | i in rows :: after[i].version == rows[i].version
    ensures LatestVersion(after) == LatestVersion(rows)
  {
  }

  /** With a thought and no building index, rebuilds give every later version in time. */
  lemma {:induction false} CanReach(pieces: Splitter, st: State, v: nat, setting: Choice)
    requires Splits(pieces) && Inv(pieces, st) && st.order != [] && WithStatus(st, Building) == None
    requires LatestVersion(st.indexes) < v
    ensures CanGive(pieces, st, v)
    decreases v - LatestVersion(st.indexes)
  {
    var b, made := NextVersion(pieces, st, setting);
    if made.indexes[b].version == v {
      assert HasVersion(made, v);
    } else {
      var after := ThenSwapped(pieces, made, b, setting);
      CanReach(pieces, after, v, setting);
      var more :| Leads(pieces, made, more, after);
      CanGiveLater(pieces, made, more, after, v);
      var steps :| Leads(pieces, st, steps, made);
      CanGiveLater(pieces, st, steps, made, v);
    }
  }

  lemma FillKeepsOrder(pieces: Splitter, st: State, at: Option<nat>, answer: Answer, setting: Choice, newId: nat)
    requires Known(st.thoughts, st.order) && (at.Some? ==> at.value in st.indexes)
    ensures Filled(pieces, st, at, answer, setting, newId).st.order == st.order
  {
  }

  lemma RefusedAddKeepsRows(pieces: Splitter, st: State, t: nat, c: Content, setting: Choice, newId: nat)
    requires Known(st.thoughts, st.order) && WithStatus(st, Building) == None
    ensures
      var after := Added(pieces, st, t, c, Answers(Refused, Refused), setting, newId);
      after.indexes == st.indexes && after.order == st.order + [t]
  {
  }

  lemma LatestGivenAgain(pieces: Splitter, st: State, b: nat, setting: Choice, c: Content)
    requires Splits(pieces) && Inv(pieces, st) && IsBuilding(st, b)
    requires st.indexes[b].version == LatestVersion(st.indexes)
    ensures CanGive(pieces, Dropped(st, b), st.indexes[b].version)
  {
    var v := st.indexes[b].version;
    var dropped := Dropped(st, b);
    DroppedKeeps(pieces, st, b);
    assert WithStatus(dropped, Building) == None by {
      OnlyOneBuilding(st, b);
    }
    assert LatestVersion(dropped.indexes) < v by {
      DroppedBelow(st, b);
    }
    if dropped.order != [] {
      CanReach(pieces, dropped, v, setting);
    } else {
      var newId := NewKey(dropped.indexes.Keys);
      assert dropped.thoughts == map[];
      var step := Add(0, c, Answers(Refused, Refused), setting, newId);
      var stored := Next(pieces, dropped, step);
      StepKeeps(pieces, dropped, step);
      RefusedAddKeepsRows(pieces, dropped, 0, c, setting, newId);
      SameRowsSameStatus(dropped, stored);
      CanReach(pieces, stored, v, setting);
      OneStep(pieces, dropped, step);
      CanGiveLater(pieces, dropped, [step], stored, v);
    }
  }

  lemma SameRowsSameStatus(st: State, after: State)
    requires after.indexes == st.indexes
    ensures WithStatus(after, Building) == None <==> WithStatus(st, Building) == None
  {
  }

  lemma OnlyOneBuilding(st: State, b: nat)
    requires OneEach(st.indexes) && IsBuilding(st, b)
    ensures WithStatus(Dropped(st, b), Building) == None
  {
    forall i | i in Dropped(st, b).indexes
      ensures st.indexes[i].status != Building
    {
      assert Apart(st.indexes[i], st.indexes[b]);
    }
  }

  lemma DroppedBelow(st: State, b: nat)
    requires OneEach(st.indexes) && IsBuilding(st, b) && st.indexes[b].version == LatestVersion(st.indexes)
    ensures LatestVersion(Dropped(st, b).indexes) < st.indexes[b].version
  {
    var rest := Dropped(st, b).indexes;
    forall i | i in rest
      ensures rest[i].version < st.indexes[b].version
    {
      assert Apart(st.indexes[i], st.indexes[b]);
    }
  }

  /** A dropped index's version can be given again exactly when it was the latest:
      requests and rebuilds can lead to an index with it then, and never do otherwise. */
  lemma VersionFreed(pieces: Splitter, st: State, b: nat)
    requires Splits(pieces) && Inv(pieces, st) && IsBuilding(st, b)
    ensures CanGive(pieces, Dropped(st, b), st.indexes[b].version) <==>
              st.indexes[b].version == LatestVersion(st.indexes)
  {
    var v := st.indexes[b].version;
    if v == LatestVersion(st.indexes) {
      LatestGivenAgain(pieces, st, b, st.indexes[b].choice, Content("", [], "", None));
    } else if CanGive(pieces, Dropped(st, b), v) {
      var steps, end :| Leads(pieces, Dropped(st, b), steps, end) && HasVersion(end, v);
      DroppedPassed(pieces, st, b);
      DroppedKeeps(pieces, st, b);
      RunKeepsPassed(pieces, Dropped(st, b), steps, end, v);
    }
  }
}
