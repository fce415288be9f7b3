/** The operator's rebuild of one user's search index, while other requests go on. */
module Rebuild {
  import opened Wrappers
  import opened Embeddings
  import opened IndexState
  import opened IndexInvariants
  import opened IndexRuns
  import opened IndexRows
  import opened Completeness
  import opened Calls
  import opened IndexProgress
  import opened Versions
  import opened IndexStore
  import opened Unseen
  import opened RebuildRuns

  /** The user's other requests. */
  class Requests {
    // How many more times they come between two steps of the rebuild.
    ghost var left: nat
    // The requests that came.
    ghost var log: seq<Step>

    /** Other requests may run here, any number of them. A caller can rely on this
        contract only, so it must be right whatever they do. */
    method Come(store: SearchStore) returns (ghost steps: seq<Step>)
      requires store.Valid()
      modifies this, store
      ensures store.Valid() && OnlyRequests(steps) && Leads(store.pieces, old(store.Model()), steps, store.Model())
      ensures log == old(log) + steps
      ensures left <= old(left) && (steps != [] ==> left < old(left))
    {
      steps := [];
    }
  }

  lemma SameBuilding(st: State, end: State)
    requires OneEach(end.indexes) && RowsKept(st, end)
    ensures WithStatus(st, Building) == WithStatus(end, Building)
  {
  }

  lemma RequestsSwapNothing(steps: seq<Step>)
    requires OnlyRequests(steps)
    ensures NoSwap(steps)
  {
  }

  lemma AfterRequests(pieces: Splitter, st: State, steps: seq<Step>, end: State, before: seq<Step>)
    requires Splits(pieces) && Inv(pieces, st) && OnlyRequests(steps) && Leads(pieces, st, steps, end)
    ensures Goes(pieces, st, before, steps, end, before + steps)
    ensures WithStatus(st, Building) == WithStatus(end, Building)
  {
    RequestsSwapNothing(steps);
    RequestedAll(steps);
    RequestsKeepRows(pieces, st, steps, end);
    SameBuilding(st, end);
  }

  ghost predicate AllHonest(providers: nat -> Provider) {
    forall call :: HonestProvider(providers(call))
  }

  method NewId(store: SearchStore) returns (newId: nat)
    ensures newId !in store.indexes
  {
    newId := 0;
    var left := store.indexes.Keys;
    while left != {}
      invariant forall i | i in store.indexes && i !in left :: i < newId
      decreases left
    {
      var i :| i in left;
      left := left - {i};
      newId := if newId <= i then i + 1 else newId;
    }
  }

  lemma OnlyBuilding(st: State, b: nat)
    requires OneEach(st.indexes) && IsBuilding(st, b)
    ensures WithStatus(st, Building) == Some(b)
  {
  }

  lemma FillGetsOn(pieces: Splitter, st: State, at: Option<nat>, answer: Answer, setting: Choice, newId: nat)
    requires Splits(pieces) && Inv(pieces, st) && WithStatus(st, Building) == at && newId !in st.indexes
    requires Missing(st.order, st.entries, at) != []
    ensures
      var e := Filled(pieces, st, at, answer, setting, newId);
      && (e.ok ==>
            && e.at.Some? && WithStatus(e.st, Building) == e.at
            && |Missing(e.st.order, e.st.entries, e.at)| < |Missing(st.order, st.entries, at)|)
      && (at.Some? ==> WithStatus(e.st, Building) == at && e.at == at)
  {
    var e := Filled(pieces, st, at, answer, setting, newId);
    FillMakesProgress(pieces, st, at, answer, setting, newId);
    StepKeeps(pieces, st, Fill(at, answer, setting, newId));
    if e.ok {
      OnlyBuilding(e.st, e.at.value);
    }
    if at.Some? {
      BatchIsPrefix(pieces, st, at, REBUILD_BATCH);
      EmbedSpares(st, at, ItemsOf(pieces, st.thoughts, Batch(pieces, st, at, REBUILD_BATCH)), false, answer, setting,
                  Building, newId);
      OnlyBuilding(e.st, at.value);
    }
  }

  lemma NoneMissing(order: seq<nat>, entries: Entries)
    ensures Missing(order, entries, None) == [] <==> order == []
  {
    MissingMeaning(order, entries, None);
    if order != [] {
      assert order[0] in Missing(order, entries, None);
    }
  }

  /** One batch of missing thoughts, as one fill; or nothing, when none is missing. */
  method FillBatch(store: SearchStore, at: Option<nat>, provider: Provider, setting: Choice)
    returns (done: bool, ok: bool, index: Option<nat>, ghost steps: seq<Step>)
    requires store.Valid() && HonestProvider(provider) && WithStatus(store.Model(), Building) == at
    modifies store
    ensures store.Valid() && Passes(store.pieces, old(store.Model()), steps, store.Model())
    ensures done <==> Missing(old(store.order), old(store.entries), at) == []
    ensures if done then steps == [] && index == at else |steps| == 1 && steps[0].Fill? && steps[0].at == at
    ensures ok && !done ==>
              && index.Some? && WithStatus(store.Model(), Building) == index
              && |Missing(store.order, store.entries, index)| < |old(Missing(store.order, store.entries, at))|
    ensures at.Some? ==> index == at && WithStatus(store.Model(), Building) == at
    ensures ok && !done ==>
              HasAllOf(store.pieces, store.Model(), index.value,
                       Batch(store.pieces, old(store.Model()), at, REBUILD_BATCH), None)
    ensures !done ==>
              var f := Filling(old(store.Model()), at, steps[0].answer, steps[0].setting);
              FillFits(store.pieces, f, provider, setting) && (ok <==> FillWorked(f))
  {
    ghost var st := store.Model();
    var batch := store.MissingThoughts(at, REBUILD_BATCH);
    BatchIsOldestThatFit(store.pieces, st, at, REBUILD_BATCH);
    if batch == [] {
      return true, true, at, [];
    }
    var newId := NewId(store);
    BatchDistinct(store.pieces, st, at, REBUILD_BATCH);
    ItemsGood(store.pieces, store.thoughts, batch);
    var query;
    ghost var answer;
    ok, index, query, answer := store.EmbedForIndex(at, ItemsOf(store.pieces, store.thoughts, batch), None, provider,
                                                    setting, Building, None, newId);
    done := false;
    StepKeeps(store.pieces, st, Fill(at, answer, setting, newId));
    FillGetsOn(store.pieces, st, at, answer, setting, newId);
    FillFills(store.pieces, st, at, answer, setting, newId);
    steps := [Fill(at, answer, setting, newId)];
    PassesOne(store.pieces, st, steps[0]);
  }

  /** Fills the index until no thought is missing from it. It ends as long as the other requests
      stop coming at some point; there is no index then only if there was no thought to begin with. */
  method FillIndex(store: SearchStore, others: Requests, at: Option<nat>, providers: nat -> Provider, from: nat,
                   setting: Choice)
    returns (ok: bool, index: Option<nat>, next: nat, ghost steps: seq<Step>)
    requires store.Valid() && AllHonest(providers) && WithStatus(store.Model(), Building) == at
    modifies store, others
    ensures store.Valid() && Goes(store.pieces, old(store.Model()), old(others.log), steps, store.Model(), others.log)
    ensures ok ==> WithStatus(store.Model(), Building) == index && Missing(store.order, store.entries, index) == []
    ensures at.Some? ==> index == at && WithStatus(store.Model(), Building) == at
    ensures ok && index == None <==> at == None && old(store.order) == []
    ensures ok && index == None ==> steps == []
    ensures at == None && old(store.order) != [] ==> !NoFill(steps)
    ensures Worked(store.pieces, old(store.Model()), steps, providers, setting, from, next, ok)
  {
    index, next, steps := at, from, [];
    ghost var st, log := store.Model(), others.log;
    NoneMissing(store.order, store.entries);
    NoFillWorked(store.pieces, st, [], providers, setting, from);
    while true
      invariant store.Valid() && WithStatus(store.Model(), Building) == index
      invariant Goes(store.pieces, st, log, steps, store.Model(), others.log)
      invariant at.Some? ==> index == at
      invariant Worked(store.pieces, st, steps, providers, setting, from, next, true)
      invariant if next == from then steps == [] && index == at && store.Model() == st && others.log == log
                else next > from && index.Some? && (at.None? ==> st.order != []) && !NoFill(steps)
      decreases others.left, |Missing(store.order, store.entries, index)|
    {
      ghost var before := store.Model();
      var done, worked, made;
      ghost var fill;
      done, worked, made, fill := FillBatch(store, index, providers(next), setting);
      if done {
        return true, index, next, steps;
      }
      FillWorkedAlone(store.pieces, before, fill, providers, setting, next, worked);
      ghost var filled, heard := store.Model(), others.log;
      ghost var coming := others.Come(store);
      BatchAndRequests(store.pieces, st, log, steps, before, heard, fill, filled, coming, store.Model(), providers,
                       setting, from, next, worked);
      steps := steps + fill + coming;
      index, next := made, next + 1;
      if !worked {
        return false, index, next, steps;
      }
    }
  }

  lemma OneFillWorked(pieces: Splitter, st: State, step: Step, providers: nat -> Provider, setting: Choice, k: nat,
                      worked: bool)
    requires Known(st.thoughts, st.order) && Enabled(st, step) && step.Fill?
    requires
      var f := Filling(st, step.at, step.answer, step.setting);
      FillFits(pieces, f, providers(k), setting) && (worked <==> FillWorked(f))
    ensures Worked(pieces, st, [step], providers, setting, k, k + 1, worked)
  {
    var f := Filling(st, step.at, step.answer, step.setting);
    FillsFrom(pieces, st, step, []);
    assert [step] + [] == [step];
    assert FillsOf(pieces, st, [step]) == [f];
    OneHolds(f, k, AsAnswered(pieces, providers, setting));
    OneHolds(f, k, IfWorked());
  }

  lemma FillWorkedAlone(pieces: Splitter, st: State, fill: seq<Step>, providers: nat -> Provider,
                        setting: Choice, k: nat,
                        worked: bool)
    requires |fill| == 1 && fill[0].Fill? && Known(st.thoughts, st.order) && Enabled(st, fill[0])
    requires
      var f := Filling(st, fill[0].at, fill[0].answer, fill[0].setting);
      FillFits(pieces, f, providers(k), setting) && (worked <==> FillWorked(f))
    ensures Worked(pieces, st, fill, providers, setting, k, k + 1, worked)
  {
    OneFillWorked(pieces, st, fill[0], providers, setting, k, worked);
    assert fill == [fill[0]];
  }

  lemma OneHolds<T>(x: T, from: nat, holds: (T, nat) -> bool)
    ensures AllHold([x], from, holds) <==> holds(x, from)
  {
    assert [x][0] == x;
  }

  /** The steps so far, one batch, and the requests that come after it. */
  lemma BatchAndRequests(pieces: Splitter, st: State, log: seq<Step>, steps: seq<Step>, before: State, heard: seq<Step>,
                         fill: seq<Step>, filled: State, coming: seq<Step>, end: State, providers: nat -> Provider,
                         setting: Choice, from: nat, k: nat, worked: bool)
    requires Splits(pieces) && Inv(pieces, before) && Inv(pieces, filled)
    requires Goes(pieces, st, log, steps, before, heard) && Worked(pieces, st, steps, providers, setting, from, k, true)
    requires Passes(pieces, before, fill, filled) && |fill| == 1 && fill[0].Fill?
    requires Worked(pieces, before, fill, providers, setting, k, k + 1, worked)
    requires OnlyRequests(coming) && Leads(pieces, filled, coming, end)
    ensures Goes(pieces, st, log, steps + fill + coming, end, heard + coming)
    ensures Worked(pieces, st, steps + fill + coming, providers, setting, from, k + 1, worked)
    ensures !NoFill(steps + fill + coming) && WithStatus(filled, Building) == WithStatus(end, Building)
  {
    OwnStep(pieces, before, fill, filled, heard);
    GoesOn(pieces, st, log, steps, before, heard, fill, filled, heard);
    AfterRequests(pieces, filled, coming, end, heard);
    GoesOn(pieces, st, log, steps + fill, filled, heard, coming, end, heard + coming);
    RequestsFillNothing(coming);
    NoFillWorked(pieces, filled, coming, providers, setting, k + 1);
    WorkedOn(pieces, before, fill, filled, coming, providers, setting, k, k + 1, k + 1, worked, true);
    WorkedOn(pieces, st, steps, before, fill + coming, providers, setting, from, k, k + 1, true, worked);
    Assoc(steps, fill, coming);
    NoFillJoin(steps, fill);
    NoFillJoin(steps + fill, coming);
    assert !NoFill(fill);
  }

  method DropIndex(store: SearchStore, b: nat) returns (ghost steps: seq<Step>)
    requires store.Valid() && IsBuilding(store.Model(), b)
    modifies store
    ensures store.Valid() && steps == [Drop(b)] && Passes(store.pieces, old(store.Model()), steps, store.Model())
    ensures store.Model() == Dropped(old(store.Model()), b) && WithStatus(store.Model(), Building) == None
  {
    DroppedKeeps(store.pieces, store.Model(), b);
    OnlyOneBuilding(store.Model(), b);
    PassesOne(store.pieces, store.Model(), Drop(b));
    store.indexes := store.indexes - {b};
    store.entries := map k | k in store.entries && k.index != b :: store.entries[k];
    steps := [Drop(b)];
  }

  method DropBuilding(store: SearchStore, ghost log: seq<Step>) returns (ghost steps: seq<Step>)
    requires store.Valid()
    modifies store
    ensures NoFill(steps)
    ensures store.Valid() && Goes(store.pieces, old(store.Model()), log, steps, store.Model(), log)
    ensures WithStatus(store.Model(), Building) == None
  {
    steps := [];
    ghost var filled := store.Model();
    var building := store.IndexWithStatus(Building);
    if building.Some? {
      steps := DropIndex(store, building.value);
      OwnStep(store.pieces, filled, steps, store.Model(), log);
    }
  }

  datatype Started = Ready(index: nat) | LeftoverFound | FillFailed | NothingToIndex

  /** From a leftover, or none, to a filled building index. There is nothing to index exactly when
      no thought is left once the fill begins. */
  method StartRebuild(store: SearchStore, others: Requests, restart: bool, providers: nat -> Provider, setting: Choice)
    returns (r: Started, next: nat, ghost steps: seq<Step>)
    requires store.Valid() && AllHonest(providers)
    modifies store, others
    ensures store.Valid() && Goes(store.pieces, old(store.Model()), old(others.log), steps, store.Model(), others.log)
    ensures r.LeftoverFound? <==> old(WithStatus(store.Model(), Building)).Some? && !restart
    ensures r.LeftoverFound? ==> steps == []
    ensures r.NothingToIndex? <==> !r.LeftoverFound? && FoundNothing(steps, store.Model())
    ensures old(WithStatus(store.Model(), Building)).Some? && restart ==>
              Drop(old(WithStatus(store.Model(), Building)).value) in steps
    ensures r.FillFailed? || r.NothingToIndex? ==> WithStatus(store.Model(), Building) == None
    ensures r.Ready? ==>
              && WithStatus(store.Model(), Building) == Some(r.index)
                && Missing(store.order, store.entries, Some(r.index)) == []
              && !NoFill(steps)
    ensures Worked(store.pieces, old(store.Model()), steps, providers, setting, 0, next, !r.FillFailed?)
  {
    ghost var st, log := store.Model(), others.log;
    next, steps := 0, [];
    NoFillWorked(store.pieces, st, [], providers, setting, 0);
    var leftover := store.IndexWithStatus(Building);
    if leftover.Some? {
      if !restart {
        return LeftoverFound, 0, steps;
      }
      ghost var drop := DropIndex(store, leftover.value);
      steps := WaitAfterDrop(store, others, st, leftover.value);
      NoFillWorked(store.pieces, st, steps, providers, setting, 0);
    }
    ghost var begun, heard, fill := store.Model(), others.log, [];
    NoThoughts(begun);
    var ok, index;
    ok, index, next, fill := FillIndex(store, others, None, providers, 0, setting);
    WorkedOn(store.pieces, st, steps, begun, fill, providers, setting, 0, 0, next, true, ok);
    GoesOn(store.pieces, st, log, steps, begun, heard, fill, store.Model(), others.log);
    NoFillJoin(steps, fill);
    steps := steps + fill;
    if !ok {
      ghost var filled := store.Model();
      ghost var drop := DropBuilding(store, others.log);
      NoFillWorked(store.pieces, filled, drop, providers, setting, next);
      WorkedOn(store.pieces, st, steps, filled, drop, providers, setting, 0, next, next, false, true);
      GoesOn(store.pieces, st, log, steps, filled, others.log, drop, store.Model(), others.log);
      NoFillJoin(steps, drop);
      return FillFailed, next, steps + drop;
    }
    // The first batch made the index, unless every thought was deleted meanwhile.
    if index.None? {
      return NothingToIndex, next, steps;
    }
    r := Ready(index.value);
  }

  /** Other requests come between the drop of a leftover and the fill. */
  method WaitAfterDrop(store: SearchStore, others: Requests, ghost st: State, b: nat) returns (ghost steps: seq<Step>)
    requires store.Valid() && WithStatus(st, Building) == Some(b) && store.Model() == Dropped(st, b)
    requires Passes(store.pieces, st, [Drop(b)], store.Model()) && WithStatus(store.Model(), Building) == None
    modifies store, others
    ensures store.Valid() && WithStatus(store.Model(), Building) == None
    ensures Goes(store.pieces, st, old(others.log), steps, store.Model(), others.log)
    ensures Drop(b) in steps && NoFill(steps)
  {
    ghost var log := others.log;
    OwnStep(store.pieces, st, [Drop(b)], store.Model(), log);
    ghost var coming := others.Come(store);
    AfterRequests(store.pieces, Dropped(st, b), coming, store.Model(), log);
    GoesOn(store.pieces, st, log, [Drop(b)], Dropped(st, b), log, coming, store.Model(), others.log);
    RequestsFillNothing(coming);
    NoFillJoin([Drop(b)], coming);
    steps := [Drop(b)] + coming;
    assert steps[0] == Drop(b);
  }

  method SwapIndexes(store: SearchStore, b: nat)
    requires store.Valid() && Enabled(store.Model(), Swap(b))
    modifies store
    ensures store.Valid() && store.Model() == Swapped(old(store.Model()), b)
  {
    SwappedKeeps(store.pieces, store.Model(), b);
    var last := store.IndexWithStatus(Active);
    if last.Some? {
      store.indexes := store.indexes[last.value := store.indexes[last.value].(status := Retired)];
    }
    store.indexes := store.indexes[b := store.indexes[b].(status := Active)];
    if last.Some? {
      store.entries := map k | k in store.entries && k.index != last.value :: store.entries[k];
    }
  }

  /** One attempt of the final fill: is every thought in the index now? */
  method FillAndCount(store: SearchStore, others: Requests, b: nat, providers: nat -> Provider, from: nat,
                      setting: Choice)
    returns (filled: bool, complete: bool, next: nat, ghost steps: seq<Step>)
    requires store.Valid() && AllHonest(providers) && WithStatus(store.Model(), Building) == Some(b)
    modifies store, others
    ensures store.Valid() && Goes(store.pieces, old(store.Model()), old(others.log), steps, store.Model(), others.log)
    ensures WithStatus(store.Model(), Building) == Some(b)
    ensures complete ==> filled
    ensures filled ==> (complete <==> NoneLeft(store.Model()))
    ensures Worked(store.pieces, old(store.Model()), steps, providers, setting, from, next, filled)
  {
    ghost var st := store.Model();
    var index;
    filled, index, next, steps := FillIndex(store, others, Some(b), providers, from, setting);
    complete := false;
    if filled {
      ghost var done, heard := store.Model(), others.log;
      ghost var coming := others.Come(store);
      AfterRequests(store.pieces, done, coming, store.Model(), heard);
      GoesOn(store.pieces, st, old(others.log), steps, done, heard, coming, store.Model(), others.log);
      RequestsFillNothing(coming);
      NoFillWorked(store.pieces, done, coming, providers, setting, next);
      WorkedOn(store.pieces, st, steps, done, coming, providers, setting, from, next, next, true, true);
      steps := steps + coming;
      var missing := store.CountMissing(b);
      complete := missing == 0;
    }
  }

  /** Fills up to three times, then swaps if nothing is missing. */
  method FinishRebuild(store: SearchStore, others: Requests, b: nat, providers: nat -> Provider, from: nat,
                       setting: Choice)
    returns (ok: bool, next: nat, ghost steps: seq<Step>, ghost counts: seq<State>, ghost works: bool)
    requires store.Valid() && AllHonest(providers) && WithStatus(store.Model(), Building) == Some(b)
    modifies store, others
    ensures store.Valid() && WithStatus(store.Model(), Building) == None
    ensures !ok ==> Goes(store.pieces, old(store.Model()), old(others.log), steps, store.Model(), others.log)
    ensures ok ==>
              && EndsInSwap(store.pieces, old(store.Model()), steps, b, store.Model())
              && Came(old(others.log), steps, others.log)
    ensures Worked(store.pieces, old(store.Model()), steps, providers, setting, from, next, works)
    ensures Counted(store.pieces, old(store.Model()), steps, counts, ok)
    ensures if ok then works else !works || |counts| == SWAP_ATTEMPTS
  {
    ghost var st, log := store.Model(), others.log;
    next, steps, counts, works := from, [], [], true;
    NoFillWorked(store.pieces, st, [], providers, setting, from);
    var attempt := 0;
    var filled, complete := true, false;
    while attempt < SWAP_ATTEMPTS && filled && !complete
      invariant store.Valid() && WithStatus(store.Model(), Building) == Some(b)
      invariant Goes(store.pieces, st, log, steps, store.Model(), others.log)
      invariant complete ==> filled && NoneLeft(store.Model())
      invariant Worked(store.pieces, st, steps, providers, setting, from, next, filled)
      invariant Counted(store.pieces, st, steps, counts, complete)
      invariant attempt <= SWAP_ATTEMPTS && (filled ==> |counts| == attempt) && |counts| <= attempt
      decreases SWAP_ATTEMPTS - attempt
    {
      ghost var before, heard, more := store.Model(), others.log, [];
      ghost var number := next;
      filled, complete, next, more := FillAndCount(store, others, b, providers, next, setting);
      WorkedOn(store.pieces, st, steps, before, more, providers, setting, from, number, next, true, filled);
      GoesOn(store.pieces, st, log, steps, before, heard, more, store.Model(), others.log);
      ghost var counted := if filled then [store.Model()] else [];
      TriedOnce(store.pieces, st, steps, more, counts, store.Model(), filled, complete);
      steps, counts := steps + more, counts + counted;
      attempt := attempt + 1;
    }
    ok, works := filled && complete, filled;
    ghost var last, closing := store.Model(), [];
    closing := SwapOrDrop(store, b, ok);
    Closed(store.pieces, st, log, steps, last, others.log, closing, b, store.Model(), providers, setting, from,
           next, works,
           counts, ok);
    steps := steps + closing;
  }

  method SwapOrDrop(store: SearchStore, b: nat, swap: bool) returns (ghost closing: seq<Step>)
    requires store.Valid() && IsBuilding(store.Model(), b) && (swap ==> Enabled(store.Model(), Swap(b)))
    modifies store
    ensures store.Valid() && WithStatus(store.Model(), Building) == None
    ensures closing == [if swap then Swap(b) else Drop(b)]
    ensures store.Model() == Next(store.pieces, old(store.Model()), closing[0])
  {
    if swap {
      SwapFacts(store.pieces, store.Model(), b);
      SwapIndexes(store, b);
      closing := [Swap(b)];
    } else {
      closing := DropIndex(store, b);
    }
  }

  /** The tries, and the swap or the drop after them. */
  lemma Closed(pieces: Splitter, st: State, log: seq<Step>, steps: seq<Step>, last: State, heard: seq<Step>,
               closing: seq<Step>, b: nat, end: State, providers: nat -> Provider, setting: Choice, from: nat,
               next: nat, works: bool, counts: seq<State>, ok: bool)
    requires Splits(pieces) && Inv(pieces, last) && Goes(pieces, st, log, steps, last, heard)
    requires Worked(pieces, st, steps, providers, setting, from, next, works)
    requires Counted(pieces, st, steps, counts, ok)
    requires closing == [if ok then Swap(b) else Drop(b)] && Enabled(last, closing[0])
    requires end == Next(pieces, last, closing[0])
    ensures !ok ==> Goes(pieces, st, log, steps + closing, end, heard)
    ensures ok ==> EndsInSwap(pieces, st, steps + closing, b, end) && Came(log, steps + closing, heard)
    ensures Worked(pieces, st, steps + closing, providers, setting, from, next, works)
    ensures Counted(pieces, st, steps + closing, counts, ok)
  {
    NoFillWorked(pieces, last, closing, providers, setting, next);
    WorkedOn(pieces, st, steps, last, closing, providers, setting, from, next, next, works, true);
    CountedOn(pieces, st, steps, closing, counts, ok);
    if ok {
      ThenSwap(pieces, st, steps, last, b);
      NoneCame(heard, Swap(b));
      CameOn(log, steps, heard, [Swap(b)], heard);
    } else {
      PassesOne(pieces, last, Drop(b));
      OwnStep(pieces, last, closing, end, heard);
      GoesOn(pieces, st, log, steps, last, heard, closing, end, heard);
    }
  }

  /** One more try, counted if its fill worked. */
  lemma TriedOnce(pieces: Splitter, st: State, steps: seq<Step>, more: seq<Step>, counts: seq<State>, mid: State,
                  filled: bool, complete: bool)
    requires Counted(pieces, st, steps, counts, false) && Leads(pieces, st, steps + more, mid)
    requires |counts| < SWAP_ATTEMPTS && (complete ==> filled) && (filled ==> (complete <==> NoneLeft(mid)))
    ensures Counted(pieces, st, steps + more, counts + if filled then [mid] else [], complete)
  {
    if filled {
      OneMoreCount(pieces, st, steps, more, counts, mid, complete);
    } else {
      CountedOn(pieces, st, steps, more, counts, false);
      Assoc(counts, [], []);
    }
  }

  lemma OneMoreCount(pieces: Splitter, st: State, steps: seq<Step>, more: seq<Step>, counts: seq<State>, mid: State,
                     complete: bool)
    requires Counted(pieces, st, steps, counts, false) && Leads(pieces, st, steps + more, mid)
    requires |counts| < SWAP_ATTEMPTS && (complete <==> NoneLeft(mid))
    ensures Counted(pieces, st, steps + more, counts + [mid], complete)
  {
    CountedOn(pieces, st, steps, more, counts, false);
    WayEnd(pieces, st, steps + more, mid);
  }

  datatype Outcome = Skipped | Rebuilt(index: nat) | RebuildFailed | Crashed

  /** What a rebuild that works leaves, however whole the indexes were that were there. */
  ghost predicate Succeeds(pieces: Splitter, st: State, steps: seq<Step>, b: nat, end: State) {
    && EndsInSwap(pieces, st, steps, b, end)
    && Retires(st, end, b)
    && (AllKeep(pieces, st, steps, b) ==> Complete(pieces, end, b))
  }

  /** What one that does not leaves: nothing that the requests alone would not have, but perhaps a building index. */
  ghost predicate LeavesAsWas(pieces: Splitter, st: State, steps: seq<Step>, end: State) {
    && Passes(pieces, st, steps, end)
    && LikeRequestsAlone(pieces, st, steps, end)
    && SettledKept(st, end)
  }

  /** One user's rebuild: a run of fills, drops and one swap at the end if it works,
      among the other requests. If it fails, the other indexes are as the requests
      alone would have left them, and none is building, except that a leftover met
      without `restart` is kept. If it works, the new index is active, the old one
      retired, and no thought is missing from it. It crashes exactly when every thought
      is deleted between the check for thoughts and the first fill. */
  method RebuildUser(store: SearchStore, others: Requests, demo: bool, restart: bool, providers: nat -> Provider,
                     setting: Choice)
    returns (r: Outcome, next: nat, ghost steps: seq<Step>, ghost counts: seq<State>, ghost works: bool)
    requires store.Valid() && AllHonest(providers)
    modifies store, others
    ensures store.Valid() && Came(old(others.log), steps, others.log)
    ensures r.Skipped? <==> demo || old(store.thoughts) == map[]
    ensures r.Skipped? ==> store.Model() == old(store.Model()) && steps == []
    ensures r.RebuildFailed? || r.Crashed? ==> LeavesAsWas(store.pieces, old(store.Model()), steps, store.Model())
    ensures r.RebuildFailed? && WithStatus(store.Model(), Building).Some? ==>
              !restart && OnlyRequests(steps)
                && WithStatus(store.Model(), Building) == old(WithStatus(store.Model(), Building))
    ensures r.Crashed? ==> WithStatus(store.Model(), Building) == None
    ensures r.Crashed? <==>
              && !r.Skipped? && (old(WithStatus(store.Model(), Building)).None? || restart)
              && FoundNothing(steps, store.Model())
    ensures r.Rebuilt? ==> Succeeds(store.pieces, old(store.Model()), steps, r.index, store.Model())
    ensures Worked(store.pieces, old(store.Model()), steps, providers, setting, 0, next, works)
    ensures Counted(store.pieces, old(store.Model()), steps, counts, r.Rebuilt?)
    ensures r.Rebuilt? ==> works
    ensures r.RebuildFailed? ==>
              || (old(WithStatus(store.Model(), Building)).Some? && !restart)
              || !works
              || |counts| == SWAP_ATTEMPTS
  {
    next, steps, counts, works := 0, [], [], true;
    NoFillWorked(store.pieces, store.Model(), [], providers, setting, 0);
    if demo || store.thoughts == map[] {
      return Skipped, next, steps, counts, works;
    }
    ghost var st, log := store.Model(), others.log;
    var started;
    started, next, steps := WaitAndStart(store, others, restart, providers, setting);
    if started.Ready? {
      r, next, steps, counts, works :=
        FinishRebuilt(store, others, st, log, steps, started.index, providers, next, setting);
    } else {
      NotRebuilt(store.pieces, st, steps, store.Model());
      works := !started.FillFailed?;
      r := if started.NothingToIndex? then Crashed else RebuildFailed;
    }
  }

  /** Other requests may come once the user is known to have thoughts. */
  method WaitAndStart(store: SearchStore, others: Requests, restart: bool, providers: nat -> Provider, setting: Choice)
    returns (r: Started, next: nat, ghost steps: seq<Step>)
    requires store.Valid() && AllHonest(providers)
    modifies store, others
    ensures store.Valid() && Goes(store.pieces, old(store.Model()), old(others.log), steps, store.Model(), others.log)
    ensures r.LeftoverFound? <==> old(WithStatus(store.Model(), Building)).Some? && !restart
    ensures r.LeftoverFound? ==>
              OnlyRequests(steps) && WithStatus(store.Model(), Building) == old(WithStatus(store.Model(), Building))
    ensures r.NothingToIndex? <==> !r.LeftoverFound? && FoundNothing(steps, store.Model())
    ensures old(WithStatus(store.Model(), Building)).Some? && restart ==>
              Drop(old(WithStatus(store.Model(), Building)).value) in steps
    ensures r.FillFailed? || r.NothingToIndex? ==> WithStatus(store.Model(), Building) == None
    ensures r.Ready? ==> WithStatus(store.Model(), Building) == Some(r.index) && !NoFill(steps)
    ensures Worked(store.pieces, old(store.Model()), steps, providers, setting, 0, next, !r.FillFailed?)
  {
    ghost var st, log := store.Model(), others.log;
    ghost var coming := others.Come(store);
    AfterRequests(store.pieces, st, coming, store.Model(), log);
    RequestsFillNothing(coming);
    ghost var begun, heard := store.Model(), others.log;
    NoFillWorked(store.pieces, st, coming, providers, setting, 0);
    r, next, steps := StartRebuild(store, others, restart, providers, setting);
    WorkedOn(store.pieces, st, coming, begun, steps, providers, setting, 0, 0, next, true, !r.FillFailed?);
    GoesOn(store.pieces, st, log, coming, begun, heard, steps, store.Model(), others.log);
    NoFillJoin(coming, steps);
    assert steps == [] ==> coming + steps == coming;
    steps := coming + steps;
  }

  lemma NotRebuilt(pieces: Splitter, st: State, steps: seq<Step>, end: State)
    requires Splits(pieces) && Inv(pieces, st) && Passes(pieces, st, steps, end)
    ensures LeavesAsWas(pieces, st, steps, end)
  {
    PassesUnseen(pieces, st, steps, end);
    PassesSettled(pieces, st, steps, end);
  }

  /** A leftover of the index's id was dropped first; any other index of it would not be building now. */
  lemma SuccessOf(pieces: Splitter, st: State, steps: seq<Step>, b: nat, end: State)
    requires Splits(pieces) && Inv(pieces, st) && EndsInSwap(pieces, st, steps, b, end)
    requires IsBuilding(st, b) ==> Drop(b) in steps
    ensures Succeeds(pieces, st, steps, b, end)
  {
    SwapRetires(pieces, st, steps, b, end);
    if AllKeep(pieces, st, steps, b) {
      RebuiltIsComplete(pieces, st, steps, b, end);
    }
  }

  method FinishRebuilt(store: SearchStore, others: Requests, ghost st: State, ghost log: seq<Step>,
                       ghost first: seq<Step>, b: nat, providers: nat -> Provider, from: nat, setting: Choice)
    returns (r: Outcome, next: nat, ghost steps: seq<Step>, ghost counts: seq<State>, ghost works: bool)
    requires store.Valid() && AllHonest(providers) && WithStatus(store.Model(), Building) == Some(b)
    requires Inv(store.pieces, st) && Goes(store.pieces, st, log, first, store.Model(), others.log)
    requires IsBuilding(st, b) ==> Drop(b) in first
    requires Worked(store.pieces, st, first, providers, setting, 0, from, true)
    modifies store, others
    ensures store.Valid() && WithStatus(store.Model(), Building) == None
    ensures (r == RebuildFailed || r == Rebuilt(b)) && Came(log, steps, others.log)
    ensures !NoFill(first) ==> !NoFill(steps)
    ensures r.RebuildFailed? ==> LeavesAsWas(store.pieces, st, steps, store.Model())
    ensures r.Rebuilt? ==> Succeeds(store.pieces, st, steps, b, store.Model())
    ensures Worked(store.pieces, st, steps, providers, setting, 0, next, works)
    ensures Counted(store.pieces, st, steps, counts, r.Rebuilt?)
    ensures if r.Rebuilt? then works else !works || |counts| == SWAP_ATTEMPTS
  {
    ghost var ready, heard := store.Model(), others.log;
    var ok;
    ok, next, steps, counts, works := FinishRebuild(store, others, b, providers, from, setting);
    WorkedOn(store.pieces, st, first, ready, steps, providers, setting, 0, from, next, true, works);
    CountedLater(store.pieces, st, first, ready, steps, counts, ok);
    NoFillJoin(first, steps);
    if ok {
      SwapOn(store.pieces, st, first, ready, steps, b, store.Model());
      CameOn(log, first, heard, steps, others.log);
      steps := first + steps;
      SuccessOf(store.pieces, st, steps, b, store.Model());
      return Rebuilt(b), next, steps, counts, works;
    }
    GoesOn(store.pieces, st, log, first, ready, heard, steps, store.Model(), others.log);
    steps := first + steps;
    NotRebuilt(store.pieces, st, steps, store.Model());
    r := RebuildFailed;
  }
}
