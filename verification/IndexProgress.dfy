/** What one batch of missing thoughts is, how a rebuild gets on with it, and the versions it uses. */
module IndexProgress {
  import opened Wrappers
  import opened Chunking
  import opened IndexState
  import opened IndexInvariants
  import opened IndexRuns

  /** How many texts these thoughts are. */
  function TextCount(pieces: Splitter, thoughts: map<nat, Content>, ids: seq<nat>): nat
    requires Known(thoughts, ids)
  {
    if ids == [] then 0 else |pieces(thoughts[ids[0]])| + TextCount(pieces, thoughts, ids[1..])
  }

  /** n thoughts from the front are as many as fit the budget, when `texts` texts are
      taken already; the first one always fits. */
  ghost predicate Fitting(pieces: Splitter, thoughts: map<nat, Content>, ids: seq<nat>, budget: int, texts: nat,
                          chosen: bool, n: nat)
    requires Known(thoughts, ids) && n <= |ids|
  {
    && (n == 0 ==> ids == [] || (chosen && texts + |pieces(thoughts[ids[0]])| > budget))
    && (texts + TextCount(pieces, thoughts, ids[..n]) <= budget || n == 0 || (n == 1 && !chosen))
    && (n < |ids| && n > 0 ==> texts + TextCount(pieces, thoughts, ids[..n + 1]) > budget)
  }

  lemma {:induction false} WithinFits(pieces: Splitter, thoughts: map<nat, Content>, ids: seq<nat>, budget: int,
                                      texts: nat, chosen: bool)
    requires Known(thoughts, ids)
    ensures Within(pieces, thoughts, ids, budget, texts, chosen) <= ids
    ensures Fitting(pieces, thoughts, ids, budget, texts, chosen,
                    |Within(pieces, thoughts, ids, budget, texts, chosen)|)
    decreases |ids|
  {
    var taken := Within(pieces, thoughts, ids, budget, texts, chosen);
    if taken != [] {
      var count := |pieces(thoughts[ids[0]])|;
      var n := |Within(pieces, thoughts, ids[1..], budget, texts + count, true)|;
      WithinFits(pieces, thoughts, ids[1..], budget, texts + count, true);
      assert ids[..n + 1][1..] == ids[1..][..n];
      if n + 1 < |ids| {
        assert ids[..n + 2][1..] == ids[1..][..n + 1];
        assert ids[1..][..1][1..] == [];
      }
    }
  }

  lemma {:induction false} TextsAtLeast(pieces: Splitter, thoughts: map<nat, Content>, ids: seq<nat>)
    requires Splits(pieces) && Known(thoughts, ids)
    ensures TextCount(pieces, thoughts, ids) >= |ids|
    decreases |ids|
  {
    if ids != [] {
      TextsAtLeast(pieces, thoughts, ids[1..]);
    }
  }

  /** A batch is the oldest missing thoughts: as many as fit the text budget, and
      at least one whenever one is missing. The query's row limit never cuts it. */
  lemma BatchIsOldestThatFit(pieces: Splitter, st: State, at: Option<nat>, budget: nat)
    requires Splits(pieces) && Known(st.thoughts, st.order) && budget > 0
    ensures Known(st.thoughts, Missing(st.order, st.entries, at))
    ensures
      var missing, batch := Missing(st.order, st.entries, at), Batch(pieces, st, at, budget);
      && batch <= missing
      && (batch == [] <==> missing == [])
      && Fitting(pieces, st.thoughts, missing, budget, 0, false, |batch|)
  {
    MissingKnown(st.thoughts, st.order, st.entries, at);
    var missing := Missing(st.order, st.entries, at);
    var limited := Limit(missing, budget);
    WithinFits(pieces, st.thoughts, limited, budget, 0, false);
    var n := |Batch(pieces, st, at, budget)|;
    assert limited[..n] == missing[..n];
    if limited != missing {
      if n < |limited| {
        assert limited[..n + 1] == missing[..n + 1];
      } else {
        TextsAtLeast(pieces, st.thoughts, missing[..n + 1]);
      }
    }
  }

  lemma {:induction false} MissingShrinks(order: seq<nat>, before: Entries, from: Option<nat>, after: Entries,
                                          to: Option<nat>)
    requires forall t | HasHead(before, from, t) :: HasHead(after, to, t)
    ensures |Missing(order, after, to)| <= |Missing(order, before, from)|
    ensures (exists t :: t in order && !HasHead(before, from, t) && HasHead(after, to, t)) ==>
              |Missing(order, after, to)| < |Missing(order, before, from)|
    decreases |order|
  {
    if order != [] {
      MissingShrinks(order[1..], before, from, after, to);
      assert order == [order[0]] + order[1..];
    }
  }

  /** A rebuild's batch that works strictly lowers the number of missing thoughts,
      in an index it names. */
  lemma FillMakesProgress(pieces: Splitter, st: State, at: Option<nat>, answer: Answer, setting: Choice, newId: nat)
    requires Splits(pieces) && Inv(pieces, st) && Enabled(st, Fill(at, answer, setting, newId))
    requires Missing(st.order, st.entries, at) != []
    ensures
      var e := Filled(pieces, st, at, answer, setting, newId);
      e.ok ==>
        && e.at.Some? && IsBuilding(e.st, e.at.value) && e.st.order == st.order
        && |Missing(e.st.order, e.st.entries, e.at)| < |Missing(st.order, st.entries, at)|
  {
    var e := Filled(pieces, st, at, answer, setting, newId);
    BatchIsOldestThatFit(pieces, st, at, REBUILD_BATCH);
    MissingMeaning(st.order, st.entries, at);
    var batch := Batch(pieces, st, at, REBUILD_BATCH);
    var items := ItemsOf(pieces, st.thoughts, batch);
    var oldest := batch[0];
    assert oldest in Missing(st.order, st.entries, at);
    FillTarget(st, at, items, answer, setting, newId);
    if e.ok {
      EmbedSpares(st, at, items, false, answer, setting, Building, newId);
      assert items[0] == Item(oldest, pieces(st.thoughts[oldest]));
      assert Writes(e.at.value, items[0], Key(e.at.value, oldest, 0));
      PutAllKeys(st.entries, e.at.value, e.st.indexes[e.at.value], items, Key(e.at.value, oldest, 0));
      MissingShrinks(st.order, st.entries, at, e.st.entries, e.at);
    }
  }
}
