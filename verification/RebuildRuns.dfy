/** A rebuild and the requests meanwhile as a run of steps: what it leaves, and when it finds nothing to index. */
module RebuildRuns {
  import opened Wrappers
  import opened Chunking
  import opened Embeddings
  import opened IndexState
  import opened IndexInvariants
  import opened IndexRuns
  import opened IndexRows
  import opened Completeness
  import opened Calls
  import opened Versions
  import opened Unseen

  /** The number of fills after which a rebuild stops waiting for none to be missing. */
  const SWAP_ATTEMPTS: nat := 3

  /** The steps lead from one state to the other, and none of them swaps indexes. */
  ghost predicate Passes(pieces: Splitter, st: State, steps: seq<Step>, end: State) {
    Leads(pieces, st, steps, end) && NoSwap(steps)
  }

  /** The steps lead from one state to the other; the last one, and no other, swaps in the index. */
  ghost predicate EndsInSwap(pieces: Splitter, st: State, steps: seq<Step>, b: nat, end: State) {
    && Leads(pieces, st, steps, end)
    && steps != [] && steps[|steps| - 1] == Swap(b) && NoSwap(steps[..|steps| - 1])
  }

  /** The requests among the steps are just those that others made between the two logs. */
  predicate Came(before: seq<Step>, steps: seq<Step>, after: seq<Step>) {
    after == before + Requested(steps)
  }

  lemma RequestedFrom(step: Step, rest: seq<Step>)
    ensures Requested([step] + rest) == (if IsRequest(step) then [step] else []) + Requested(rest)
  {
    assert ([step] + rest)[1..] == rest;
  }

  lemma {:induction false} RequestedJoin(a: seq<Step>, b: seq<Step>)
    ensures Requested(a + b) == Requested(a) + Requested(b)
    decreases |a|
  {
    if a == [] {
      assert a + b == b;
    } else {
      var step, rest := a[0], a[1..];
      RequestedJoin(rest, b);
      RequestedFrom(step, rest);
      RequestedFrom(step, rest + b);
      HeadApart(a, b);
      Assoc(if IsRequest(step) then [step] else [], Requested(rest), Requested(b));
      assert a == [step] + rest;
    }
  }

  lemma CameOn(first: seq<Step>, steps: seq<Step>, second: seq<Step>, more: seq<Step>, third: seq<Step>)
    requires Came(first, steps, second) && Came(second, more, third)
    ensures Came(first, steps + more, third)
  {
    RequestedJoin(steps, more);
  }

  lemma {:induction false} RequestedAll(steps: seq<Step>)
    requires OnlyRequests(steps)
    ensures Requested(steps) == steps
    decreases |steps|
  {
    if steps != [] {
      RequestedNext(steps);
      RequestedAll(steps[1..]);
    }
  }

  lemma NoneCame(before: seq<Step>, step: Step)
    requires !IsRequest(step)
    ensures Came(before, [step], before)
  {
    assert [step][1..] == [];
  }

  /** Steps without a swap, and the others' requests are those that came meanwhile. */
  ghost predicate Goes(pieces: Splitter, st: State, before: seq<Step>, steps: seq<Step>, end: State, after: seq<Step>) {
    Passes(pieces, st, steps, end) && Came(before, steps, after)
  }

  lemma GoesOn(pieces: Splitter, st: State, first: seq<Step>, steps: seq<Step>, mid: State, second: seq<Step>,
               more: seq<Step>, end: State, third: seq<Step>)
    requires Goes(pieces, st, first, steps, mid, second) && Goes(pieces, mid, second, more, end, third)
    ensures Goes(pieces, st, first, steps + more, end, third)
  {
    PassesOn(pieces, st, steps, mid, more, end);
    CameOn(first, steps, second, more, third);
  }

  /** A step of the rebuild itself. */
  lemma OwnStep(pieces: Splitter, st: State, steps: seq<Step>, end: State, log: seq<Step>)
    requires Passes(pieces, st, steps, end) && |steps| == 1 && !IsRequest(steps[0])
    ensures Goes(pieces, st, log, steps, end, log)
  {
    NoneCame(log, steps[0]);
    assert steps == [steps[0]];
  }

  lemma PassesOn(pieces: Splitter, st: State, steps: seq<Step>, mid: State, more: seq<Step>, end: State)
    requires Passes(pieces, st, steps, mid) && Passes(pieces, mid, more, end)
    ensures Passes(pieces, st, steps + more, end)
  {
    LeadsJoin(pieces, st, steps, mid, more, end);
    NoSwapJoin(steps, more);
  }

  lemma PassesOne(pieces: Splitter, st: State, step: Step)
    requires Sane(st) && Enabled(st, step) && !step.Swap?
    ensures Passes(pieces, st, [step], Next(pieces, st, step))
  {
    OneStep(pieces, st, step);
  }

  lemma ThenSwap(pieces: Splitter, st: State, steps: seq<Step>, mid: State, b: nat)
    requires Passes(pieces, st, steps, mid) && Sane(mid) && Enabled(mid, Swap(b))
    ensures EndsInSwap(pieces, st, steps + [Swap(b)], b, Swapped(mid, b))
  {
    LeadsThen(pieces, st, steps, mid, Swap(b));
    FrontOfJoin(steps, [Swap(b)]);
  }

  // --- Which batches work --------------------------------------------------------

  /** A batch of a rebuild: the state it came in, its index, what its call made of it, and the setting. */
  datatype Filling = Filling(st: State, at: Option<nat>, answer: Answer, setting: Choice)

  /** The batches among the steps, in order. */
  ghost function FillsOf(pieces: Splitter, st: State, steps: seq<Step>): seq<Filling>
    decreases |steps|
  {
    if steps == [] || !Known(st.thoughts, st.order) || !Enabled(st, steps[0]) then []
    else
      (if steps[0].Fill? then [Filling(st, steps[0].at, steps[0].answer, steps[0].setting)] else []) +
      FillsOf(pieces, Next(pieces, st, steps[0]), steps[1..])
  }

  /** The batch's call wrote its entries. */
  predicate FillWorked(f: Filling) {
    (f.at.Some? ==> f.at.value in f.st.indexes) && CallWrites(f.st, f.at, f.answer)
  }

  /** It did so just when the provider answers every text of the batch. */
  ghost predicate FillFits(pieces: Splitter, f: Filling, provider: Provider, setting: Choice) {
    && f.setting == setting && Known(f.st.thoughts, f.st.order)
    && (f.at.Some? ==> f.at.value in f.st.indexes)
    && var batch := Batch(pieces, f.st, f.at, REBUILD_BATCH);
       && Known(f.st.thoughts, batch)
       && (FillWorked(f) <==>
             CallWorks(provider, f.st, f.at, setting, None, ItemsOf(pieces, f.st.thoughts, batch)))
  }

  /** The steps' batches are the rebuild's calls from one number to the next, each working as its
      provider lets it; `works` says whether all of them do. */
  ghost predicate Worked(pieces: Splitter, st: State, steps: seq<Step>, providers: nat -> Provider, setting: Choice,
                         from: nat, next: nat, works: bool) {
    FillsWorked(FillsOf(pieces, st, steps), AsAnswered(pieces, providers, setting), from, next, works)
  }

  ghost predicate FillsWorked(fills: seq<Filling>, asAnswered: (Filling, nat) -> bool, from: nat, next: nat,
                              works: bool) {
    && next == from + |fills|
    && AllHold(fills, from, asAnswered)
    && (works <==> AllHold(fills, from, IfWorked()))
  }

  lemma FillsWorkedOn(x: seq<Filling>, y: seq<Filling>, asAnswered: (Filling, nat) -> bool, from: nat, between: nat,
                      next: nat, a: bool, b: bool)
    requires FillsWorked(x, asAnswered, from, between, a) && FillsWorked(y, asAnswered, between, next, b)
    ensures FillsWorked(x + y, asAnswered, from, next, a && b)
  {
    AllJoin(x, y, from, asAnswered);
    AllJoin(x, y, from, IfWorked());
  }

  /** Each item, with its number, is so. */
  predicate AllHold<T>(items: seq<T>, from: nat, holds: (T, nat) -> bool) {
    forall j: nat | j < |items| :: holds(items[j], from + j)
  }

  ghost function AsAnswered(pieces: Splitter, providers: nat -> Provider, setting: Choice): (Filling, nat) -> bool {
    (f: Filling, n: nat) => FillFits(pieces, f, providers(n), setting)
  }

  function IfWorked(): (Filling, nat) -> bool {
    (f: Filling, n: nat) => FillWorked(f)
  }

  lemma FillsFrom(pieces: Splitter, st: State, step: Step, rest: seq<Step>)
    requires Known(st.thoughts, st.order) && Enabled(st, step)
    ensures FillsOf(pieces, st, [step] + rest) ==
            (if step.Fill? then [Filling(st, step.at, step.answer, step.setting)] else []) +
            FillsOf(pieces, Next(pieces, st, step), rest)
  {
    assert ([step] + rest)[1..] == rest;
  }

  lemma {:induction false} FillsJoin(pieces: Splitter, st: State, first: seq<Step>, mid: State, second: seq<Step>)
    requires Leads(pieces, st, first, mid)
    ensures FillsOf(pieces, st, first + second) == FillsOf(pieces, st, first) + FillsOf(pieces, mid, second)
    decreases |first|
  {
    if first == [] {
      assert first + second == second;
    } else {
      var step, rest := first[0], first[1..];
      var next := Next(pieces, st, step);
      FillsJoin(pieces, next, rest, mid, second);
      FillsFrom(pieces, st, step, rest);
      FillsFrom(pieces, st, step, rest + second);
      HeadApart(first, second);
      Assoc(if step.Fill? then [Filling(st, step.at, step.answer, step.setting)] else [],
            FillsOf(pieces, next, rest), FillsOf(pieces, mid, second));
      assert first == [step] + rest;
    }
  }

  lemma WorkedOn(pieces: Splitter, st: State, first: seq<Step>, mid: State, second: seq<Step>,
                 providers: nat -> Provider,
                 setting: Choice, from: nat, between: nat, next: nat, a: bool, b: bool)
    requires Leads(pieces, st, first, mid)
    requires Worked(pieces, st, first, providers, setting, from, between, a)
    requires Worked(pieces, mid, second, providers, setting, between, next, b)
    ensures Worked(pieces, st, first + second, providers, setting, from, next, a && b)
  {
    FillsJoin(pieces, st, first, mid, second);
    FillsWorkedOn(FillsOf(pieces, st, first), FillsOf(pieces, mid, second), AsAnswered(pieces, providers, setting),
                  from, between, next, a, b);
  }

  /** What holds of all items of both sequences, numbered on, holds of all of the two together. */
  lemma AllJoin<T>(x: seq<T>, y: seq<T>, from: nat, holds: (T, nat) -> bool)
    ensures AllHold(x + y, from, holds) <==> AllHold(x, from, holds) && AllHold(y, from + |x|, holds)
  {
    assert forall j: nat | j < |x| :: (x + y)[j] == x[j];
    assert forall j: nat | j < |y| :: (x + y)[|x| + j] == y[j];
    if AllHold(x + y, from, holds) {
      forall j: nat | j < |y|
        ensures holds(y[j], from + |x| + j)
      {
        assert holds((x + y)[|x| + j], from + (|x| + j));
      }
      forall j: nat | j < |x|
        ensures holds(x[j], from + j)
      {
        assert holds((x + y)[j], from + j);
      }
    }
  }

  lemma {:induction false} NoFillWorked(pieces: Splitter, st: State, steps: seq<Step>, providers: nat -> Provider,
                                        setting: Choice, from: nat)
    requires NoFill(steps)
    ensures FillsOf(pieces, st, steps) == [] && Worked(pieces, st, steps, providers, setting, from, from, true)
    decreases |steps|
  {
    if steps != [] && Known(st.thoughts, st.order) && Enabled(st, steps[0]) {
      NoFillWorked(pieces, Next(pieces, st, steps[0]), steps[1..], providers, setting, from);
    }
  }

  // --- States on the way ---------------------------------------------------------

  /** The state is met along the steps. */
  ghost predicate OnTheWay(pieces: Splitter, st: State, steps: seq<Step>, mid: State) {
    exists n | 0 <= n <= |steps| :: Leads(pieces, st, steps[..n], mid)
  }

  lemma WayOn(pieces: Splitter, st: State, steps: seq<Step>, more: seq<Step>, mid: State)
    requires OnTheWay(pieces, st, steps, mid)
    ensures OnTheWay(pieces, st, steps + more, mid)
  {
    var n :| 0 <= n <= |steps| && Leads(pieces, st, steps[..n], mid);
    assert (steps + more)[..n] == steps[..n];
  }

  lemma WayEnd(pieces: Splitter, st: State, steps: seq<Step>, end: State)
    requires Leads(pieces, st, steps, end)
    ensures OnTheWay(pieces, st, steps, end)
  {
    assert steps[..|steps|] == steps;
  }

  lemma WayLater(pieces: Splitter, st: State, first: seq<Step>, mid: State, steps: seq<Step>, later: State)
    requires Leads(pieces, st, first, mid) && OnTheWay(pieces, mid, steps, later)
    ensures OnTheWay(pieces, st, first + steps, later)
  {
    var n :| 0 <= n <= |steps| && Leads(pieces, mid, steps[..n], later);
    LeadsJoin(pieces, st, first, mid, steps[..n], later);
    assert (first + steps)[..|first| + n] == first + steps[..n];
  }

  /** An index is building, and it has every thought. */
  ghost predicate NoneLeft(st: State) {
    WithStatus(st, Building).Some? && Missing(st.order, st.entries, WithStatus(st, Building)) == []
  }

  /** The states of the final counts: at most three on the way, and only the last can have none left,
      which `complete` says. */
  ghost predicate Counted(pieces: Splitter, st: State, steps: seq<Step>, counts: seq<State>, complete: bool) {
    && |counts| <= SWAP_ATTEMPTS
    && (forall k | 0 <= k < |counts| :: OnTheWay(pieces, st, steps, counts[k]))
    && (forall k | 0 <= k < |counts| - 1 :: !NoneLeft(counts[k]))
    && (complete <==> counts != [] && NoneLeft(counts[|counts| - 1]))
  }

  lemma CountedOn(pieces: Splitter, st: State, steps: seq<Step>, more: seq<Step>, counts: seq<State>, complete: bool)
    requires Counted(pieces, st, steps, counts, complete)
    ensures Counted(pieces, st, steps + more, counts, complete)
  {
    forall k | 0 <= k < |counts|
      ensures OnTheWay(pieces, st, steps + more, counts[k])
    {
      WayOn(pieces, st, steps, more, counts[k]);
    }
  }

  lemma CountedLater(pieces: Splitter, st: State, first: seq<Step>, mid: State, steps: seq<Step>, counts: seq<State>,
                     complete: bool)
    requires Leads(pieces, st, first, mid) && Counted(pieces, mid, steps, counts, complete)
    ensures Counted(pieces, st, first + steps, counts, complete)
  {
    forall k | 0 <= k < |counts|
      ensures OnTheWay(pieces, st, first + steps, counts[k])
    {
      WayLater(pieces, st, first, mid, steps, counts[k]);
    }
  }

  // --- What stays --------------------------------------------------------------

  /** Every index that is not building is as it was. */
  predicate SettledKept(st: State, end: State) {
    forall i | i in st.indexes && st.indexes[i].status != Building ::
      i in end.indexes && end.indexes[i] == st.indexes[i]
  }

  lemma StepSettles(pieces: Splitter, st: State, step: Step)
    requires Sane(st) && Enabled(st, step) && !step.Swap?
    ensures SettledKept(st, Next(pieces, st, step))
  {
    if !step.Drop? {
      StepGrows(pieces, st, step);
    }
  }

  lemma {:induction false} PassesSettled(pieces: Splitter, st: State, steps: seq<Step>, end: State)
    requires Splits(pieces) && Inv(pieces, st) && Passes(pieces, st, steps, end)
    ensures Inv(pieces, end) && SettledKept(st, end)
    decreases |steps|
  {
    if steps != [] {
      StepKeeps(pieces, st, steps[0]);
      StepSettles(pieces, st, steps[0]);
      PassesSettled(pieces, Next(pieces, st, steps[0]), steps[1..], end);
    }
  }

  /** The other indexes are as the requests among the steps alone would leave them. */
  ghost predicate LikeRequestsAlone(pieces: Splitter, st: State, steps: seq<Step>, end: State) {
    exists other :: Leads(pieces, WithoutBuilding(st), Requested(steps), other) && Unbuilt(end, other)
  }

  lemma PassesUnseen(pieces: Splitter, st: State, steps: seq<Step>, end: State)
    requires Splits(pieces) && Inv(pieces, st) && Passes(pieces, st, steps, end)
    ensures LikeRequestsAlone(pieces, st, steps, end)
  {
    StartUnbuilt(st);
    var other := RebuildIsUnseen(pieces, st, WithoutBuilding(st), steps, end);
  }

  // --- A rebuild that swaps ----------------------------------------------------

  lemma {:induction false} BeforeLast(pieces: Splitter, st: State, steps: seq<Step>, end: State) returns (mid: State)
    requires Splits(pieces) && Inv(pieces, st) && Leads(pieces, st, steps, end) && steps != []
    ensures Inv(pieces, mid) && Leads(pieces, st, steps[..|steps| - 1], mid)
    ensures Enabled(mid, steps[|steps| - 1]) && end == Next(pieces, mid, steps[|steps| - 1])
    decreases |steps|
  {
    if |steps| == 1 {
      return st;
    }
    var next, rest := Next(pieces, st, steps[0]), steps[1..];
    StepKeeps(pieces, st, steps[0]);
    mid := BeforeLast(pieces, next, rest, end);
    LeadsFrom(pieces, st, steps[0], rest[..|rest| - 1], mid);
    FrontTail(steps);
  }

  lemma {:induction false} AllKeepFront(pieces: Splitter, st: State, steps: seq<Step>, i: nat)
    requires steps != [] && AllKeep(pieces, st, steps, i)
    ensures AllKeep(pieces, st, steps[..|steps| - 1], i)
    decreases |steps|
  {
    if |steps| >= 2 && Known(st.thoughts, st.order) && Enabled(st, steps[0]) {
      AllKeepFront(pieces, Next(pieces, st, steps[0]), steps[1..], i);
      FrontTail(steps);
    }
  }

  lemma FrontTail<T>(s: seq<T>)
    requires |s| >= 2
    ensures var rest := s[1..];
            && s[..|s| - 1] == [s[0]] + rest[..|rest| - 1] && s[|s| - 1] == rest[|rest| - 1]
            && s[..|s| - 1][0] == s[0] && s[..|s| - 1][1..] == rest[..|rest| - 1]
  {
  }
  /** The index holds every piece of every thought, as its model embeds it. */
  ghost predicate Complete(pieces: Splitter, st: State, b: nat) {
    b in st.indexes && forall t, chunk: nat | t in st.thoughts && chunk < |pieces(st.thoughts[t])| ::
      Holds(pieces, st, b, t, chunk)
  }

  predicate Holds(pieces: Splitter, st: State, b: nat, t: nat, chunk: nat)
    requires b in st.indexes && t in st.thoughts && chunk < |pieces(st.thoughts[t])|
  {
    var k := Key(b, t, chunk);
    k in st.entries && st.entries[k] == EntryFor(st.indexes[b], pieces(st.thoughts[t])[chunk])
  }

  /** Whatever the other indexes hold, the one swapped in is complete, if each change of tags that wrote
      it found the thought's other pieces there. A leftover that is dropped need not be whole. */
  lemma RebuiltIsComplete(pieces: Splitter, st: State, steps: seq<Step>, b: nat, end: State)
    requires Splits(pieces) && Inv(pieces, st) && EndsInSwap(pieces, st, steps, b, end)
    requires AllKeep(pieces, st, steps, b)
    requires IsBuilding(st, b) ==> WholeIn(pieces, st.thoughts, st.entries, b) || Drop(b) in steps
    ensures Complete(pieces, end, b)
  {
    var mid := BeforeLast(pieces, st, steps, end);
    PassesSettled(pieces, st, steps[..|steps| - 1], mid);
    if b !in st.indexes {
      AbsentIsWhole(pieces, st, b);
    }
    DropEarlier(steps, b);
    AllKeepFront(pieces, st, steps, b);
    RunKeepsWhole(pieces, st, steps[..|steps| - 1], mid, b);
    forall t, chunk: nat | t in end.thoughts && chunk < |pieces(end.thoughts[t])|
      ensures Holds(pieces, end, b, t, chunk)
    {
      SwapOfWhole(pieces, mid, b, t, chunk);
    }
  }

  lemma DropEarlier(steps: seq<Step>, b: nat)
    requires steps != [] && steps[|steps| - 1].Swap?
    ensures Drop(b) in steps ==> Drop(b) in steps[..|steps| - 1]
  {
  }

  /** The index is the active one, holds every thought's head, and the one that was
      active is retired. */
  ghost predicate Retires(st: State, end: State, b: nat) {
    && WithStatus(end, Active) == Some(b) && WithStatus(end, Building) == None
    && Missing(end.order, end.entries, Some(b)) == []
    && forall i | i in st.indexes && st.indexes[i].status == Active ::
         i in end.indexes && end.indexes[i] == st.indexes[i].(status := Retired)
  }

  lemma SwapKeepsMissing(st: State, b: nat)
    requires OneEach(st.indexes) && IsBuilding(st, b)
    ensures Missing(Swapped(st, b).order, Swapped(st, b).entries, Some(b)) == Missing(st.order, st.entries, Some(b))
  {
    SameHeadsSameMissing(st.order, st.entries, Swapped(st, b).entries, Some(b));
  }

  lemma SwapRetiresActive(st: State, b: nat, i: nat)
    requires OneEach(st.indexes) && IsBuilding(st, b) && i in st.indexes && st.indexes[i].status == Active
    ensures i in Swapped(st, b).indexes && Swapped(st, b).indexes[i] == st.indexes[i].(status := Retired)
  {
  }

  lemma SwapFacts(pieces: Splitter, st: State, b: nat)
    requires Inv(pieces, st) && Enabled(st, Swap(b))
    ensures Retires(st, Swapped(st, b), b)
  {
    SwapActive(pieces, st, b);
    SwapKeepsVersions(pieces, st, b);
    SwapKeepsMissing(st, b);
    forall i | i in st.indexes && st.indexes[i].status == Active
      ensures i in Swapped(st, b).indexes && Swapped(st, b).indexes[i] == st.indexes[i].(status := Retired)
    {
      SwapRetiresActive(st, b, i);
    }
  }

  lemma SwapRetires(pieces: Splitter, st: State, steps: seq<Step>, b: nat, end: State)
    requires Splits(pieces) && Inv(pieces, st) && EndsInSwap(pieces, st, steps, b, end)
    ensures Retires(st, end, b)
  {
    var mid := BeforeLast(pieces, st, steps, end);
    PassesSettled(pieces, st, steps[..|steps| - 1], mid);
    SwapFacts(pieces, mid, b);
  }

  lemma FrontOfJoin<T>(a: seq<T>, b: seq<T>)
    requires b != []
    ensures (a + b)[..|a + b| - 1] == a + b[..|b| - 1] && (a + b)[|a + b| - 1] == b[|b| - 1]
  {
  }

  lemma NoSwapJoin(a: seq<Step>, b: seq<Step>)
    requires NoSwap(a) && NoSwap(b)
    ensures NoSwap(a + b)
  {
  }

  lemma SwapOn(pieces: Splitter, st: State, steps: seq<Step>, mid: State, more: seq<Step>, b: nat, end: State)
    requires Passes(pieces, st, steps, mid) && EndsInSwap(pieces, mid, more, b, end)
    ensures EndsInSwap(pieces, st, steps + more, b, end)
  {
    LeadsJoin(pieces, st, steps, mid, more, end);
    FrontOfJoin(steps, more);
    NoSwapJoin(steps, more[..|more| - 1]);
  }

  // --- Nothing to index --------------------------------------------------------

  /** No thought is left after the steps, and none of them fills an index. */
  predicate FoundNothing(steps: seq<Step>, end: State) {
    end.thoughts == map[] && NoFill(steps)
  }

  predicate NoFill(steps: seq<Step>) {
    forall i | 0 <= i < |steps| :: !steps[i].Fill?
  }

  lemma NoFillJoin(a: seq<Step>, b: seq<Step>)
    ensures NoFill(a + b) <==> NoFill(a) && NoFill(b)
  {
    assert forall i | 0 <= i < |a| :: (a + b)[i] == a[i];
    assert forall i | 0 <= i < |b| :: (a + b)[|a| + i] == b[i];
  }

  lemma RequestsFillNothing(steps: seq<Step>)
    requires OnlyRequests(steps)
    ensures NoFill(steps)
  {
  }

  lemma NoThoughts(st: State)
    requires Sane(st)
    ensures st.thoughts == map[] <==> st.order == []
  {
    if st.order != [] {
      assert st.order[0] in st.thoughts;
    }
  }

  lemma RequestFirst(step: Step, steps: seq<Step>)
    requires IsRequest(step) && OnlyRequests(steps)
    ensures OnlyRequests([step] + steps)
  {
  }

  lemma {:induction false} DeleteAll(pieces: Splitter, st: State) returns (steps: seq<Step>, end: State)
    requires Splits(pieces) && Inv(pieces, st)
    ensures OnlyRequests(steps) && Leads(pieces, st, steps, end) && end.thoughts == map[]
    decreases |st.thoughts|
  {
    if st.thoughts == map[] {
      return [], st;
    }
    var t :| t in st.thoughts;
    StepKeeps(pieces, st, Delete(t));
    steps, end := DeleteAll(pieces, Next(pieces, st, Delete(t)));
    LeadsFrom(pieces, st, Delete(t), steps, end);
    RequestFirst(Delete(t), steps);
    steps := [Delete(t)] + steps;
  }

  /** Whatever there is, requests may delete every thought before a rebuild's first fill, with or
      without a leftover to drop. */
  lemma CanFindNothing(pieces: Splitter, st: State) returns (steps: seq<Step>, end: State)
    requires Splits(pieces) && Inv(pieces, st)
    ensures Leads(pieces, st, steps, end) && FoundNothing(steps, end) && WithStatus(end, Building) == None
  {
    var more, last := DeleteAll(pieces, st);
    RequestsFillNothing(more);
    RunKeeps(pieces, st, more, last);
    var b := WithStatus(last, Building);
    if b.None? {
      return more, last;
    }
    OnlyOneBuilding(last, b.value);
    LeadsThen(pieces, st, more, last, Drop(b.value));
    NoFillJoin(more, [Drop(b.value)]);
    steps, end := more + [Drop(b.value)], Dropped(last, b.value);
  }

  /** With no thought, a fill makes no index. */
  lemma NothingFilled(pieces: Splitter, st: State, answer: Answer, setting: Choice, newId: nat)
    requires Sane(st) && st.order == []
    ensures Filled(pieces, st, None, answer, setting, newId) == Embed(st, None, true)
  {
    BatchIsPrefix(pieces, st, None, REBUILD_BATCH);
  }

  /** Such a run: a thought is stored, a rebuild sees that there is one, and it is deleted; the fill
      that begins then makes no index. */
  lemma ThoughtDeletedMeanwhile(pieces: Splitter, c: Content, setting: Choice, answer: Answer)
      returns (st: State, end: State)
    requires Splits(pieces)
    ensures Leads(pieces, NOTHING, [Add(1, c, Answers(Refused, Refused), setting, 1)], st) && st.thoughts != map[]
    ensures Leads(pieces, st, [Delete(1)], end) && FoundNothing([Delete(1)], end) && Sane(end)
    ensures Filled(pieces, end, None, answer, setting, 1) == Embed(end, None, true)
  {
    var first := Add(1, c, Answers(Refused, Refused), setting, 1);
    NothingIsRight(pieces);
    RefusedAddStoresOnly(pieces, 1, c, setting, 1);
    StepKeeps(pieces, NOTHING, first);
    st := State([1], map[1 := c], map[], map[]);
    OneStep(pieces, NOTHING, first);
    assert 1 in st.thoughts;
    DeletedKeeps(pieces, st, 1);
    OneStep(pieces, st, Delete(1));
    end := Deleted(st, 1);
    assert [1][1..] == [];
    NoThoughts(end);
    NothingFilled(pieces, end, answer, setting, 1);
  }
}
