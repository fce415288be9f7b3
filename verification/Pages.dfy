/** The chat as reopening a conversation shows it, item by item and said of the stored rows. */
module Pages {
  import opened Wrappers
  import opened Messages
  import opened Transcript
  import opened Proposals
  import opened Discussions
  import opened Chat
  import opened Rounds
  import opened Screen
  import opened Reload

  // --- Which rows begin an item ---------------------------------------------------------------

  predicate IsBoundary(row: Message) {
    row.role == User || row.role == Summary
  }

  /** Among the first n rows, an assistant row stands after the last user message and summary. */
  predicate AnswerOpen(rows: seq<Message>, n: nat)
    requires n <= |rows|
  {
    n > 0 && !IsBoundary(rows[n - 1]) && (rows[n - 1].role == Assistant || AnswerOpen(rows, n - 1))
  }

  /** A user message and a summary have an item each; an answer's begins with its first assistant row. */
  predicate Begins(rows: seq<Message>, i: nat) {
    i < |rows| && (IsBoundary(rows[i]) || BeginsAnswer(rows, i))
  }

  predicate BeginsAnswer(rows: seq<Message>, i: nat) {
    i < |rows| && rows[i].role == Assistant && !AnswerOpen(rows, i)
  }

  /** No user message or summary stands after i, up to j. */
  predicate SameAnswer(rows: seq<Message>, i: nat, j: nat)
    requires j < |rows|
  {
    forall k | i < k <= j :: !IsBoundary(rows[k])
  }

  function Beginnings(rows: seq<Message>, n: nat): (at: seq<nat>)
    requires n <= |rows|
    ensures forall x | 0 <= x < |at| :: at[x] < n
  {
    if n == 0 then [] else Beginnings(rows, n - 1) + if Begins(rows, n - 1) then [n - 1] else []
  }

  lemma {:induction false} BeginningsMeaning(rows: seq<Message>, n: nat)
    requires n <= |rows|
    ensures Ascending(Beginnings(rows, n))
    ensures forall i: nat :: i in Beginnings(rows, n) <==> i < n && Begins(rows, i)
  {
    if n > 0 {
      BeginningsMeaning(rows, n - 1);
      AscendingSnoc(Beginnings(rows, n - 1), n - 1);
    }
  }

  lemma AscendingSnoc(at: seq<nat>, i: nat)
    requires Ascending(at) && forall x | 0 <= x < |at| :: at[x] < i
    ensures Ascending(at + [i])
    ensures forall j: nat :: j in at + [i] <==> j in at || j == i
  {
  }

  // --- What an answer's rows give, of those among the first n -----------------------------------

  /** The texts of the assistant rows of the answer that begins at i. */
  function TextOf(rows: seq<Message>, i: nat, n: nat): string
    requires n <= |rows|
  {
    if n <= i then ""
    else
      TextOf(rows, i, n - 1)
      + if rows[n - 1].role == Assistant && SameAnswer(rows, i, n - 1) then OrEmpty(rows[n - 1].content) else ""
  }

  /** What its tool rows' searches returned, one after the other. */
  function ReturnedTo(rows: seq<Message>, i: nat, n: nat): seq<Source>
    requires n <= |rows|
  {
    if n <= i then []
    else
      ReturnedTo(rows, i, n - 1)
      + if rows[n - 1].role == Tool && SameAnswer(rows, i, n - 1) && rows[n - 1].details.Sources?
        then rows[n - 1].details.sources else []
  }

  /** Its last assistant row that was not completed or has an error. */
  function LastFailing(t: Transcript, i: nat, n: nat): Option<nat>
    requires n <= |t.rows|
  {
    if n <= i then None
    else if Fails(t, n - 1) && SameAnswer(t.rows, i, n - 1) then Some(n - 1)
    else LastFailing(t, i, n - 1)
  }

  predicate Fails(t: Transcript, j: nat)
    requires j < |t.rows|
  {
    t.rows[j].role == Assistant && (t.rows[j].status != Complete || j in t.errors)
  }

  /** How an answer that failed last at `failed` ended. */
  predicate EndsAs(t: Transcript, failed: Option<nat>, view: View) {
    match failed
    case None => view.shape == Finished && view.error == None
    case Some(j) =>
      && j < |t.rows|
      && view.shape == (if t.rows[j].status == Status.Cut && j !in t.errors then CutShort else Broken)
      && view.error == Some(Fault(if j in t.errors then t.errors[j] else "internal_error", DID_NOT_FINISH))
  }

  /** The text of the last user message among the first n rows. */
  function PromptBefore(rows: seq<Message>, n: nat): string
    requires n <= |rows|
  {
    if n == 0 then ""
    else if rows[n - 1].role == User then OrEmpty(rows[n - 1].content)
    else PromptBefore(rows, n - 1)
  }

  predicate ShowsAnswer(item: Item, t: Transcript, i: nat, n: nat)
    requires i < n <= |t.rows|
  {
    && item.AnswerItem? && item.prompt == PromptBefore(t.rows, i) && item.compacted == (i in t.compacted)
    && item.view.text == TextOf(t.rows, i, n)
    && item.view.sources == FirstOfEach(ReturnedTo(t.rows, i, n))
    && EndsAs(t, LastFailing(t, i, n), item.view)
  }

  /** The item that row i begins, from the first n rows. */
  predicate Shows(item: Item, t: Transcript, i: nat, n: nat)
    requires i < n <= |t.rows|
  {
    match t.rows[i].role
    case User => item == UserItem(OrEmpty(t.rows[i].content), i in t.compacted)
    case Summary => item == SummaryItem(OrEmpty(t.rows[i].content), i in t.compacted)
    case Assistant => ShowsAnswer(item, t, i, n)
    case Tool => false
  }

  // --- Each thought once ---------------------------------------------------------------------------

  /** The first source of each thought, in order. */
  function FirstOfEach(sources: seq<Source>): seq<Source> {
    if sources == [] then []
    else
      var before, last := sources[..|sources| - 1], sources[|sources| - 1];
      FirstOfEach(before) + if HasSource(before, last.id) then [] else [last]
  }

  lemma FirstSnoc(sources: seq<Source>, source: Source)
    ensures FirstOfEach(sources + [source]) ==
            FirstOfEach(sources) + if HasSource(sources, source.id) then [] else [source]
  {
    assert (sources + [source])[..|sources|] == sources;
  }

  lemma HasSnoc(sources: seq<Source>, source: Source, id: string)
    ensures HasSource(sources + [source], id) <==> HasSource(sources, id) || source.id == id
  {
    if i :| 0 <= i < |sources| && sources[i].id == id {
      assert (sources + [source])[i].id == id;
    }
    assert (sources + [source])[|sources|] == source;
  }

  lemma {:induction false} FirstHasAll(sources: seq<Source>, id: string)
    ensures HasSource(FirstOfEach(sources), id) <==> HasSource(sources, id)
  {
    if sources != [] {
      var before, last := sources[..|sources| - 1], sources[|sources| - 1];
      assert sources == before + [last];
      FirstHasAll(before, id);
      HasSnoc(before, last, id);
      HasSnoc(FirstOfEach(before), last, id);
      Assoc(FirstOfEach(before), [], []);
    }
  }

  /** Adding a search's results to a list keeps the first source of each thought. */
  lemma {:induction false} WithSourcesIsFirst(seen: seq<Source>, added: seq<Source>)
    ensures WithSources(FirstOfEach(seen), added) == FirstOfEach(seen + added)
    decreases |added|
  {
    if added == [] {
      Assoc(seen, [], []);
    } else {
      var more := seen + [added[0]];
      OneMoreSource(seen, added[0]);
      WithSourcesIsFirst(more, added[1..]);
      HeadMoved(seen, added);
    }
  }

  lemma OneMoreSource(seen: seq<Source>, source: Source)
    ensures FirstOfEach(seen + [source]) ==
            if HasSource(FirstOfEach(seen), source.id) then FirstOfEach(seen) else FirstOfEach(seen) + [source]
  {
    FirstSnoc(seen, source);
    FirstHasAll(seen, source.id);
    Assoc(FirstOfEach(seen), [], []);
  }

  lemma HeadMoved(seen: seq<Source>, added: seq<Source>)
    requires added != []
    ensures seen + added == seen + [added[0]] + added[1..]
  {
  }

  // --- The answer as its events arrive ----------------------------------------------------------------

  function FoundIn(events: seq<Event>): seq<Source> {
    if events == [] then []
    else
      var last := events[|events| - 1];
      FoundIn(events[..|events| - 1]) + if last.ToolEnded? && last.sources.Some? then last.sources.value else []
  }

  function ProposedIn(events: seq<Event>): seq<nat> {
    if events == [] then []
    else
      var last := events[|events| - 1];
      ProposedIn(events[..|events| - 1]) + if last.Shown? then [last.proposal] else []
  }

  /** The last event that ends an answer, and the last error. */
  function EndIn(events: seq<Event>): Option<Event> {
    if events == [] then None
    else if events[|events| - 1].Done? || events[|events| - 1].Failure? then Some(events[|events| - 1])
    else EndIn(events[..|events| - 1])
  }

  function FaultIn(events: seq<Event>): Option<Fault> {
    if events == [] then None
    else if events[|events| - 1].Failure? then Some(events[|events| - 1].fault)
    else FaultIn(events[..|events| - 1])
  }

  /** What is on screen: the text of all deltas, each thought found once, the proposals shown, and the
      end and the error told last. */
  lemma {:induction false} OnScreenMeaning(events: seq<Event>)
    ensures OnScreen(events) ==
            View(Spelled(events), FirstOfEach(FoundIn(events)), ProposedIn(events),
                 match EndIn(events)
                 case None => Streamed
                 case Some(end) => if end.Done? then Finished else Broken,
                 FaultIn(events))
  {
    if events != [] {
      var before, last := events[..|events| - 1], events[|events| - 1];
      OnScreenMeaning(before);
      Assoc(Spelled(before), [], []);
      Assoc(FoundIn(before), [], []);
      Assoc(ProposedIn(before), [], []);
      if last.ToolEnded? && last.sources.Some? {
        WithSourcesIsFirst(FoundIn(before), last.sources.value);
      }
    }
  }

  // --- Row by row ---------------------------------------------------------------------------------------

  lemma {:induction false} OpenUntil(rows: seq<Message>, i: nat, m: nat)
    requires i < m <= |rows| && rows[i].role == Assistant && SameAnswer(rows, i, m - 1)
    ensures AnswerOpen(rows, m)
  {
    if i < m - 1 {
      assert !IsBoundary(rows[m - 1]);
      OpenUntil(rows, i, m - 1);
    }
  }

  /** No later row belongs to an answer before another item begins. */
  lemma NotAfterNext(rows: seq<Message>, i: nat, b: nat, n: nat)
    requires i < b <= n < |rows| && rows[i].role == Assistant && Begins(rows, b)
    ensures !SameAnswer(rows, i, n)
  {
    if SameAnswer(rows, i, n) {
      assert !IsBoundary(rows[b]);
      OpenUntil(rows, i, b);
      assert false;
    }
  }

  /** A row of another item leaves this one as it is. */
  lemma ShowsStill(item: Item, t: Transcript, i: nat, n: nat)
    requires i < n < |t.rows| && Shows(item, t, i, n)
    requires t.rows[i].role == Assistant ==> !SameAnswer(t.rows, i, n)
    ensures Shows(item, t, i, n + 1)
  {
    if t.rows[i].role == Assistant {
      Assoc(TextOf(t.rows, i, n), [], []);
      Assoc(ReturnedTo(t.rows, i, n), [], []);
    }
  }

  lemma ResultShows(item: Item, t: Transcript, i: nat, n: nat, count: nat, named: set<nat>)
    requires i < n < |t.rows| && ShowsAnswer(item, t, i, n) && t.rows[n].role == Tool && SameAnswer(t.rows, i, n)
    ensures ShowsAnswer(item.(view := WithResult(item.view, t.rows[n], count, named)), t, i, n + 1)
  {
    Assoc(TextOf(t.rows, i, n), [], []);
    Assoc(ReturnedTo(t.rows, i, n), [], []);
    if t.rows[n].details.Sources? {
      WithSourcesIsFirst(ReturnedTo(t.rows, i, n), t.rows[n].details.sources);
    }
  }

  lemma RowShows(item: Item, t: Transcript, i: nat, n: nat)
    requires i < n < |t.rows| && ShowsAnswer(item, t, i, n) && t.rows[n].role == Assistant && SameAnswer(t.rows, i, n)
    ensures ShowsAnswer(item.(view := WithRow(item.view, t.rows[n], ErrorAt(t.errors, n))), t, i, n + 1)
  {
    Assoc(ReturnedTo(t.rows, i, n), [], []);
  }

  lemma FirstRowShows(prompt: string, t: Transcript, n: nat)
    requires n < |t.rows| && t.rows[n].role == Assistant && prompt == PromptBefore(t.rows, n)
    ensures ShowsAnswer(AnswerItem(prompt, WithRow(BLANK.(shape := Finished), t.rows[n], ErrorAt(t.errors, n)),
                                   n in t.compacted), t, n, n + 1)
  {
    assert SameAnswer(t.rows, n, n);
  }

  /** The page of the first n rows has an item for each of them that begins one, in order. */
  predicate PageFits(page: Page, rows: seq<Message>, n: nat)
    requires n <= |rows|
  {
    var at := Beginnings(rows, n);
    && |page.items| == |at| && page.prompt == PromptBefore(rows, n)
    && (forall x | 0 <= x < |at| :: page.items[x].AnswerItem? <==> rows[at[x]].role == Assistant)
    && (IsOpen(page) <==> AnswerOpen(rows, n))
    && (IsOpen(page) ==> SameAnswer(rows, at[|at| - 1], n - 1))
  }

  // What one more row does to the items: it adds one, changes the open answer, or does nothing.

  predicate Grows(page: Page, row: Message) {
    IsBoundary(row) || (row.role == Assistant && !IsOpen(page))
  }

  predicate Changes(page: Page, row: Message) {
    !IsBoundary(row) && IsOpen(page)
  }

  lemma Grown(page: Page, row: Message, error: Option<string>, compacted: bool, count: nat, n: nat)
    requires Grows(page, row)
    ensures var after := WithMessage(page, row, error, compacted, count, n);
            && |after.items| == |page.items| + 1 && after.items[..|page.items|] == page.items
            && after.items[|page.items|] ==
               (match row.role
                case User => UserItem(OrEmpty(row.content), compacted)
                case Summary => SummaryItem(OrEmpty(row.content), compacted)
                case _ => AnswerItem(page.prompt, WithRow(BLANK.(shape := Finished), row, error), compacted))
            && (IsOpen(after) <==> row.role == Assistant)
            && after.prompt == (if row.role == User then OrEmpty(row.content) else page.prompt)
            && after.named == page.named
            && after.places == page.places + if row.role == Assistant then [Place(n, |page.items|)] else []
  {
    Assoc(page.places, [], []);
  }

  lemma Altered(page: Page, row: Message, error: Option<string>, compacted: bool, count: nat, n: nat)
    requires Changes(page, row)
    ensures var after, last := WithMessage(page, row, error, compacted, count, n), |page.items| - 1;
            && |after.items| == |page.items| && after.items[..last] == page.items[..last]
            && after.items[last] ==
               page.items[last].(view := if row.role == Tool then WithResult(OpenView(page), row, count, page.named)
                                         else WithRow(OpenView(page), row, error))
            && IsOpen(after) && after.prompt == page.prompt
            && after.named ==
               page.named + (if row.role == Tool
                               && NewlyNamed(row, count, page.named) then {row.details.proposal} else {})
            && after.places == page.places + [Place(n, last)]
  {
    assert page.named + {} == page.named;
  }

  lemma Unmoved(page: Page, row: Message, error: Option<string>, compacted: bool, count: nat, n: nat)
    requires !Grows(page, row) && !Changes(page, row)
    ensures WithMessage(page, row, error, compacted, count, n) == page && row.role == Tool
  {
  }

  lemma GrowsIsBegins(page: Page, rows: seq<Message>, n: nat)
    requires n < |rows| && (IsOpen(page) <==> AnswerOpen(rows, n))
    ensures Grows(page, rows[n]) <==> Begins(rows, n)
    ensures Beginnings(rows, n + 1) == Beginnings(rows, n) + if Begins(rows, n) then [n] else []
    ensures |Beginnings(rows, n + 1)| == |Beginnings(rows, n)| + if Begins(rows, n) then 1 else 0
  {
  }

  lemma FitsGrown(page: Page, rows: seq<Message>, n: nat, after: Page)
    requires n < |rows| && PageFits(page, rows, n) && Begins(rows, n)
    requires |after.items| == |page.items| + 1 && after.items[..|page.items|] == page.items
    requires after.items[|page.items|].AnswerItem? <==> rows[n].role == Assistant
    requires IsOpen(after) <==> rows[n].role == Assistant
    requires after.prompt == (if rows[n].role == User then OrEmpty(rows[n].content) else page.prompt)
    ensures PageFits(after, rows, n + 1)
  {
    var at := Beginnings(rows, n);
    assert Beginnings(rows, n + 1) == at + [n] && SameAnswer(rows, n, n);
    forall x | 0 <= x < |at + [n]|
      ensures after.items[x].AnswerItem? <==> rows[(at + [n])[x]].role == Assistant
    {
      assert x < |at| ==> after.items[x] == after.items[..|page.items|][x];
    }
  }

  lemma FitsAltered(page: Page, rows: seq<Message>, n: nat, after: Page)
    requires n < |rows| && PageFits(page, rows, n) && IsOpen(page) && !IsBoundary(rows[n]) && !Begins(rows, n)
    requires |after.items| == |page.items| && after.items[..|page.items| - 1] == page.items[..|page.items| - 1]
    requires IsOpen(after) && after.prompt == page.prompt
    ensures PageFits(after, rows, n + 1)
  {
    var at := Beginnings(rows, n);
    GrowsIsBegins(page, rows, n);
    Assoc(at, [], []);
    forall x | 0 <= x < |at|
      ensures after.items[x].AnswerItem? <==> page.items[x].AnswerItem?
    {
      assert x < |at| - 1 ==> after.items[x] == after.items[..|page.items| - 1][x];
    }
  }

  lemma FitsStep(page: Page, rows: seq<Message>, n: nat, error: Option<string>, compacted: bool, count: nat,
                 after: Page)
    requires n < |rows| && PageFits(page, rows, n)
    requires after == WithMessage(page, rows[n], error, compacted, count, n)
    ensures PageFits(after, rows, n + 1)
  {
    GrowsIsBegins(page, rows, n);
    if Grows(page, rows[n]) {
      Grown(page, rows[n], error, compacted, count, n);
      FitsGrown(page, rows, n, after);
    } else if Changes(page, rows[n]) {
      Altered(page, rows[n], error, compacted, count, n);
      FitsAltered(page, rows, n, after);
    } else {
      Unmoved(page, rows[n], error, compacted, count, n);
      Assoc(Beginnings(rows, n), [], []);
    }
  }

  /** The pages of the first rows: of none, of one, and so on. */
  predicate AllPages(pages: seq<Page>, t: Transcript, count: nat) {
    && |pages| == |t.rows| + 1 && pages[0] == Page([], false, "", {}, [])
    && forall k | 0 <= k < |t.rows| :: IsNext(pages, t, count, k)
  }

  predicate IsNext(pages: seq<Page>, t: Transcript, count: nat, k: nat)
    requires k < |t.rows| && |pages| == |t.rows| + 1
  {
    pages[k + 1] == WithMessage(pages[k], t.rows[k], ErrorAt(t.errors, k), k in t.compacted, count, k)
  }

  lemma PagesOf(t: Transcript, count: nat) returns (pages: seq<Page>)
    ensures AllPages(pages, t, count) && pages[|t.rows|] == PageOf(t, count, |t.rows|)
  {
    pages := seq(|t.rows| + 1, n requires 0 <= n <= |t.rows| => PageOf(t, count, n));
    forall k | 0 <= k < |t.rows|
      ensures IsNext(pages, t, count, k)
    {
      assert pages[k + 1] == PageOf(t, count, k + 1) && pages[k] == PageOf(t, count, k);
    }
  }

  lemma NextFits(pages: seq<Page>, t: Transcript, count: nat, n: nat)
    requires AllPages(pages, t, count) && n < |t.rows| && PageFits(pages[n], t.rows, n)
    ensures PageFits(pages[n + 1], t.rows, n + 1)
  {
    assert IsNext(pages, t, count, n);
    FitsStep(pages[n], t.rows, n, ErrorAt(t.errors, n), n in t.compacted, count, pages[n + 1]);
  }

  lemma {:induction false} PageIsFit(pages: seq<Page>, t: Transcript, count: nat, n: nat)
    requires AllPages(pages, t, count) && n <= |t.rows|
    ensures PageFits(pages[n], t.rows, n)
  {
    if n > 0 {
      PageIsFit(pages, t, count, n - 1);
      NextFits(pages, t, count, n - 1);
    }
  }

  /** With no answer open, or at a boundary, the next row belongs to none of the items. */
  lemma NoneOpen(t: Transcript, n: nat, i: nat)
    requires i < n < |t.rows| && t.rows[i].role == Assistant
    requires !AnswerOpen(t.rows, n) || IsBoundary(t.rows[n])
    ensures !SameAnswer(t.rows, i, n)
  {
    if SameAnswer(t.rows, i, n) {
      OpenUntil(t.rows, i, n);
      assert false;
    }
  }

  /** While one is open, it belongs to the last only. */
  lemma LastOpen(t: Transcript, n: nat, x: nat)
    requires n < |t.rows| && x < |Beginnings(t.rows, n)| - 1 && t.rows[Beginnings(t.rows, n)[x]].role == Assistant
    ensures !SameAnswer(t.rows, Beginnings(t.rows, n)[x], n)
  {
    var at := Beginnings(t.rows, n);
    BeginningsMeaning(t.rows, n);
    assert at[x] < at[x + 1] && at[x + 1] in at;
    NotAfterNext(t.rows, at[x], at[x + 1], n);
  }

  /** The next row belongs to no item but the open answer. */
  lemma NotOthers(page: Page, t: Transcript, n: nat, x: nat)
    requires n < |t.rows| && PageFits(page, t.rows, n) && x < |page.items| && page.items[x].AnswerItem?
    requires Changes(page, t.rows[n]) ==> x < |page.items| - 1
    ensures !SameAnswer(t.rows, Beginnings(t.rows, n)[x], n)
  {
    if Changes(page, t.rows[n]) {
      LastOpen(t, n, x);
    } else {
      NoneOpen(t, n, Beginnings(t.rows, n)[x]);
    }
  }

  /** The open answer takes the next row in. */
  lemma TakenIn(page: Page, t: Transcript, n: nat, count: nat, i: nat, item: Item)
    requires n < |t.rows| && Changes(page, t.rows[n]) && i < n && item == page.items[|page.items| - 1]
    requires SameAnswer(t.rows, i, n) && ShowsAnswer(item, t, i, n)
    ensures ShowsAnswer(WithMessage(page, t.rows[n], ErrorAt(t.errors, n), n in t.compacted, count,
                                    n).items[|page.items| - 1], t, i, n + 1)
  {
    Altered(page, t.rows[n], ErrorAt(t.errors, n), n in t.compacted, count, n);
    if t.rows[n].role == Tool {
      ResultShows(item, t, i, n, count, page.named);
    } else {
      RowShows(item, t, i, n);
    }
  }

  lemma OtherItem(page: Page, t: Transcript, n: nat, x: nat)
    requires n < |t.rows| && PageFits(page, t.rows, n) && x < |page.items|
    requires Changes(page, t.rows[n]) ==> x < |page.items| - 1
    requires Shows(page.items[x], t, Beginnings(t.rows, n)[x], n)
    ensures Shows(page.items[x], t, Beginnings(t.rows, n)[x], n + 1)
  {
    if page.items[x].AnswerItem? {
      NotOthers(page, t, n, x);
    }
    ShowsStill(page.items[x], t, Beginnings(t.rows, n)[x], n);
  }

  lemma OpenItem(page: Page, t: Transcript, n: nat, count: nat)
    requires n < |t.rows| && PageFits(page, t.rows, n) && Changes(page, t.rows[n])
    requires Shows(page.items[|page.items| - 1], t, Beginnings(t.rows, n)[|page.items| - 1], n)
    ensures var after, last := WithMessage(page, t.rows[n], ErrorAt(t.errors, n), n in t.compacted, count, n),
              |page.items| - 1;
            last < |after.items| && Shows(after.items[last], t, Beginnings(t.rows, n)[last], n + 1)
  {
    var last := |page.items| - 1;
    Altered(page, t.rows[n], ErrorAt(t.errors, n), n in t.compacted, count, n);
    TakenIn(page, t, n, count, Beginnings(t.rows, n)[last], page.items[last]);
  }

  lemma ItemStep(page: Page, t: Transcript, n: nat, count: nat, x: nat, after: Page)
    requires n < |t.rows| && PageFits(page, t.rows, n) && x < |page.items|
    requires after == WithMessage(page, t.rows[n], ErrorAt(t.errors, n), n in t.compacted, count, n)
    requires Shows(page.items[x], t, Beginnings(t.rows, n)[x], n)
    ensures x < |after.items| && Shows(after.items[x], t, Beginnings(t.rows, n)[x], n + 1)
  {
    if Changes(page, t.rows[n]) && x == |page.items| - 1 {
      OpenItem(page, t, n, count);
    } else {
      OthersKept(page, t.rows[n], ErrorAt(t.errors, n), n in t.compacted, count, n, x);
      OtherItem(page, t, n, x);
    }
  }

  lemma OthersKept(page: Page, row: Message, error: Option<string>, compacted: bool, count: nat, n: nat, x: nat)
    requires x < |page.items| && (Changes(page, row) ==> x < |page.items| - 1)
    ensures var after := WithMessage(page, row, error, compacted, count, n);
            x < |after.items| && after.items[x] == page.items[x]
  {
  }

  lemma NewItem(page: Page, t: Transcript, n: nat, count: nat, after: Page)
    requires n < |t.rows| && PageFits(page, t.rows, n) && Begins(t.rows, n)
    requires after == WithMessage(page, t.rows[n], ErrorAt(t.errors, n), n in t.compacted, count, n)
    ensures |page.items| < |after.items| && Shows(after.items[|page.items|], t, n, n + 1)
  {
    GrowsIsBegins(page, t.rows, n);
    Grown(page, t.rows[n], ErrorAt(t.errors, n), n in t.compacted, count, n);
    if t.rows[n].role == Assistant {
      FirstRowShows(page.prompt, t, n);
    }
  }

  lemma {:induction false} ItemShows(pages: seq<Page>, t: Transcript, count: nat, n: nat, x: nat)
    requires AllPages(pages, t, count) && n <= |t.rows| && x < |Beginnings(t.rows, n)|
    ensures x < |pages[n].items| && Shows(pages[n].items[x], t, Beginnings(t.rows, n)[x], n)
  {
    PageIsFit(pages, t, count, n - 1);
    assert IsNext(pages, t, count, n - 1);
    GrowsIsBegins(pages[n - 1], t.rows, n - 1);
    if x < |Beginnings(t.rows, n - 1)| {
      ItemShows(pages, t, count, n - 1, x);
      ItemStep(pages[n - 1], t, n - 1, count, x, pages[n]);
    } else {
      NewItem(pages[n - 1], t, n - 1, count, pages[n]);
    }
  }

  // --- The proposals it shows -----------------------------------------------------------------------

  /** A tool row of an answer shows this stored proposal. */
  predicate ShownAt(rows: seq<Message>, count: nat, j: nat, p: nat)
    requires j < |rows|
  {
    rows[j].role == Tool && AnswerOpen(rows, j) && rows[j].details == ProposalShown(p) && p < count
  }

  predicate ShownBefore(rows: seq<Message>, count: nat, n: nat, p: nat)
    requires n <= |rows|
  {
    exists j | 0 <= j < n :: ShownAt(rows, count, j, p)
  }

  /** Row n is the first to show its proposal. */
  predicate ShowsFirst(rows: seq<Message>, count: nat, n: nat)
    requires n < |rows|
  {
    && rows[n].role == Tool && rows[n].details.ProposalShown? && rows[n].details.proposal < count
    && !ShownBefore(rows, count, n, rows[n].details.proposal)
  }

  /** The proposals that the tool rows of the answer that begins at i are the first to show. */
  function CardsOf(rows: seq<Message>, count: nat, i: nat, n: nat): seq<nat>
    requires n <= |rows|
  {
    if n <= i then []
    else
      CardsOf(rows, count, i, n - 1)
      + if ShowsFirst(rows, count, n - 1) && SameAnswer(rows, i, n - 1) then [rows[n - 1].details.proposal] else []
  }

  ghost predicate PageNames(page: Page, rows: seq<Message>, count: nat, n: nat)
    requires n <= |rows|
  {
    forall p: nat :: p in page.named <==> ShownBefore(rows, count, n, p)
  }

  predicate HasCards(item: Item, cards: seq<nat>) {
    item.AnswerItem? ==> item.view.cards == cards
  }

  lemma ShownStep(rows: seq<Message>, count: nat, n: nat, p: nat)
    requires n < |rows|
    ensures ShownBefore(rows, count, n + 1, p) <==> ShownBefore(rows, count, n, p) || ShownAt(rows, count, n, p)
  {
  }

  lemma NamesStep(page: Page, t: Transcript, n: nat, count: nat)
    requires n < |t.rows| && PageNames(page, t.rows, count, n) && (IsOpen(page) <==> AnswerOpen(t.rows, n))
    ensures PageNames(WithMessage(page, t.rows[n], ErrorAt(t.errors, n), n in t.compacted, count, n), t.rows, count,
                      n + 1)
  {
    var after := WithMessage(page, t.rows[n], ErrorAt(t.errors, n), n in t.compacted, count, n);
    forall p: nat
      ensures p in after.named <==> ShownBefore(t.rows, count, n + 1, p)
    {
      ShownStep(t.rows, count, n, p);
    }
  }

  lemma {:induction false} NamesMeaning(pages: seq<Page>, t: Transcript, count: nat, n: nat)
    requires AllPages(pages, t, count) && n <= |t.rows|
    ensures PageNames(pages[n], t.rows, count, n)
  {
    if n > 0 {
      NamesMeaning(pages, t, count, n - 1);
      PageIsFit(pages, t, count, n - 1);
      assert IsNext(pages, t, count, n - 1);
      NamesStep(pages[n - 1], t, n - 1, count);
    }
  }

  lemma CardsKept(rows: seq<Message>, count: nat, i: nat, n: nat)
    requires n < |rows| && (ShowsFirst(rows, count, n) ==> !SameAnswer(rows, i, n))
    ensures CardsOf(rows, count, i, n + 1) == CardsOf(rows, count, i, n)
  {
    Assoc(CardsOf(rows, count, i, n), [], []);
  }

  lemma CardsTaken(rows: seq<Message>, count: nat, i: nat, n: nat, view: View, named: set<nat>)
    requires i < n < |rows| && SameAnswer(rows, i, n) && view.cards == CardsOf(rows, count, i, n)
    requires rows[n].role == Tool
    requires forall p: nat :: p in named <==> ShownBefore(rows, count, n, p)
    ensures WithResult(view, rows[n], count, named).cards == CardsOf(rows, count, i, n + 1)
  {
    Assoc(CardsOf(rows, count, i, n), [], []);
  }

  lemma CardsStep(page: Page, t: Transcript, n: nat, count: nat, x: nat, after: Page)
    requires n < |t.rows| && PageFits(page, t.rows, n) && x < |page.items| && PageNames(page, t.rows, count, n)
    requires after == WithMessage(page, t.rows[n], ErrorAt(t.errors, n), n in t.compacted, count, n)
    requires HasCards(page.items[x], CardsOf(t.rows, count, Beginnings(t.rows, n)[x], n))
    ensures x < |after.items| && HasCards(after.items[x], CardsOf(t.rows, count, Beginnings(t.rows, n)[x], n + 1))
  {
    var i := Beginnings(t.rows, n)[x];
    if Changes(page, t.rows[n]) && x == |page.items| - 1 {
      Altered(page, t.rows[n], ErrorAt(t.errors, n), n in t.compacted, count, n);
      if t.rows[n].role == Tool {
        CardsTaken(t.rows, count, i, n, page.items[x].view, page.named);
      } else {
        CardsKept(t.rows, count, i, n);
      }
    } else {
      OthersKept(page, t.rows[n], ErrorAt(t.errors, n), n in t.compacted, count, n, x);
      if page.items[x].AnswerItem? {
        NotOthers(page, t, n, x);
        CardsKept(t.rows, count, i, n);
      }
    }
  }

  lemma NewCards(page: Page, t: Transcript, n: nat, count: nat, after: Page)
    requires n < |t.rows| && PageFits(page, t.rows, n) && Begins(t.rows, n)
    requires after == WithMessage(page, t.rows[n], ErrorAt(t.errors, n), n in t.compacted, count, n)
    ensures |page.items| < |after.items| && HasCards(after.items[|page.items|], CardsOf(t.rows, count, n, n + 1))
  {
    GrowsIsBegins(page, t.rows, n);
    Grown(page, t.rows[n], ErrorAt(t.errors, n), n in t.compacted, count, n);
    CardsKept(t.rows, count, n, n);
  }

  lemma {:induction false} ItemCards(pages: seq<Page>, t: Transcript, count: nat, n: nat, x: nat)
    requires AllPages(pages, t, count) && n <= |t.rows| && x < |Beginnings(t.rows, n)|
    ensures x < |pages[n].items| && HasCards(pages[n].items[x], CardsOf(t.rows, count, Beginnings(t.rows, n)[x], n))
  {
    PageIsFit(pages, t, count, n - 1);
    assert IsNext(pages, t, count, n - 1);
    GrowsIsBegins(pages[n - 1], t.rows, n - 1);
    if x < |Beginnings(t.rows, n - 1)| {
      ItemCards(pages, t, count, n - 1, x);
      NamesMeaning(pages, t, count, n - 1);
      CardsStep(pages[n - 1], t, n - 1, count, x, pages[n]);
    } else {
      NewCards(pages[n - 1], t, n - 1, count, pages[n]);
    }
  }

  // --- The answer that a proposal no tool row shows goes with -----------------------------------------

  /** The last answer that begins at or before x begins at i. */
  predicate GoesWithAnswer(rows: seq<Message>, i: nat, x: nat) {
    && BeginsAnswer(rows, i) && i <= x
    && forall j | i < j <= x :: !BeginsAnswer(rows, j)
  }

  /** The item that a place names, for a position, is the answer begun last at or before it. */
  predicate OwnerSound(owner: Option<nat>, rows: seq<Message>, n: nat, x: nat)
    requires n <= |rows|
  {
    var at := Beginnings(rows, n);
    match owner
    case None => forall y | 0 <= y < |at| && rows[at[y]].role == Assistant :: x < at[y]
    case Some(y) =>
      && y < |at| && rows[at[y]].role == Assistant && at[y] <= x
      && forall z | y < z < |at| && rows[at[z]].role == Assistant :: x < at[z]
  }

  /** Whether row n is placed with an answer. */
  predicate IsPlaced(rows: seq<Message>, n: nat)
    requires n < |rows|
  {
    rows[n].role == Assistant || (rows[n].role == Tool && AnswerOpen(rows, n))
  }

  lemma PlacesStep(page: Page, t: Transcript, n: nat, count: nat, after: Page)
    requires n < |t.rows| && (IsOpen(page) <==> AnswerOpen(t.rows, n))
    requires after == WithMessage(page, t.rows[n], ErrorAt(t.errors, n), n in t.compacted, count, n)
    ensures after.places == page.places + if IsPlaced(t.rows, n) then [Place(n, |after.items| - 1)] else []
    ensures IsPlaced(t.rows, n) ==> after.items != []
  {
    Assoc(page.places, [], []);
  }

  lemma OwnerStays(owner: Option<nat>, rows: seq<Message>, n: nat, x: nat)
    requires n < |rows| && OwnerSound(owner, rows, n, x)
    requires x < n || !IsPlaced(rows, n)
    ensures OwnerSound(owner, rows, n + 1, x)
  {
    var at := Beginnings(rows, n);
    if Begins(rows, n) {
      assert Beginnings(rows, n + 1) == at + [n];
    } else {
      assert Beginnings(rows, n + 1) == at;
    }
  }

  lemma OwnerNext(places: seq<Place>, after: seq<Place>, last: int, t: Transcript, n: nat, x: nat)
    requires n < |t.rows| && OwnerSound(Owner(places, x), t.rows, n, x)
    requires IsPlaced(t.rows, n) ==> last >= 0 && (n <= x ==> OwnerSound(Some(last), t.rows, n + 1, x))
    requires after == places + if IsPlaced(t.rows, n) then [Place(n, last)] else []
    ensures OwnerSound(Owner(after, x), t.rows, n + 1, x)
  {
    if IsPlaced(t.rows, n) {
      OwnerSnoc(places, Place(n, last), x);
    } else {
      Assoc(places, [], []);
    }
    if x < n || !IsPlaced(t.rows, n) {
      OwnerStays(Owner(places, x), t.rows, n, x);
    }
  }

  lemma OwnerStep(page: Page, t: Transcript, n: nat, count: nat, after: Page, x: nat)
    requires n < |t.rows| && PageFits(page, t.rows, n) && PageFits(after, t.rows, n + 1)
    requires after == WithMessage(page, t.rows[n], ErrorAt(t.errors, n), n in t.compacted, count, n)
    requires OwnerSound(Owner(page.places, x), t.rows, n, x)
    ensures OwnerSound(Owner(after.places, x), t.rows, n + 1, x)
  {
    PlacesStep(page, t, n, count, after);
    if IsPlaced(t.rows, n) && n <= x {
      OpenAfter(after, t, n + 1, x);
    }
    OwnerNext(page.places, after.places, |after.items| - 1, t, n, x);
  }

  lemma {:induction false} OwnerMeaning(pages: seq<Page>, t: Transcript, count: nat, n: nat, x: nat)
    requires AllPages(pages, t, count) && n <= |t.rows|
    ensures OwnerSound(Owner(pages[n].places, x), t.rows, n, x)
  {
    if n > 0 {
      OwnerMeaning(pages, t, count, n - 1, x);
      PageIsFit(pages, t, count, n - 1);
      PageIsFit(pages, t, count, n);
      assert IsNext(pages, t, count, n - 1);
      OwnerStep(pages[n - 1], t, n - 1, count, pages[n], x);
    }
  }

  /** After a placed row the last item is the answer it belongs to. */
  lemma OpenAfter(page: Page, t: Transcript, n: nat, x: nat)
    requires 0 < n <= |t.rows| && PageFits(page, t.rows, n) && IsPlaced(t.rows, n - 1) && n - 1 <= x
    ensures page.items != [] && OwnerSound(Some(|page.items| - 1), t.rows, n, x)
  {
  }

  // --- All of it --------------------------------------------------------------------------------------------

  /** Of the first n proposals, those that no tool row shows and that go with the answer that begins at i. */
  function LeftWith(rows: seq<Message>, proposals: seq<Proposal>, i: nat, n: nat): seq<nat>
    requires n <= |proposals|
  {
    if n == 0 then []
    else
      LeftWith(rows, proposals, i, n - 1)
      + if !ShownBefore(rows, |proposals|, |rows|, n - 1) && GoesWithAnswer(rows, i, proposals[n - 1].position)
        then [n - 1] else []
  }

  lemma OwnerIsIt(rows: seq<Message>, owner: Option<nat>, x: nat, y: nat)
    requires y < |Beginnings(rows, |rows|)| && rows[Beginnings(rows, |rows|)[y]].role == Assistant
    requires OwnerSound(owner, rows, |rows|, x)
    ensures owner == Some(y) <==> GoesWithAnswer(rows, Beginnings(rows, |rows|)[y], x)
  {
    var at := Beginnings(rows, |rows|);
    BeginningsMeaning(rows, |rows|);
    assert at[y] in at;
    if owner == Some(y) {
      forall j: nat | at[y] < j && BeginsAnswer(rows, j)
        ensures x < j
      {
        assert j in at;
        var z :| 0 <= z < |at| && at[z] == j;
        assert y < z;
      }
    }
    if GoesWithAnswer(rows, at[y], x) {
      assert owner.Some?;
      assert at[owner.value] in at;
    }
  }

  lemma {:induction false} GoingIsLeft(pages: seq<Page>, t: Transcript, proposals: seq<Proposal>, y: nat, n: nat)
    requires AllPages(pages, t, |proposals|) && n <= |proposals| && y < |Beginnings(t.rows, |t.rows|)|
    requires t.rows[Beginnings(t.rows, |t.rows|)[y]].role == Assistant
    ensures Going(pages[|t.rows|], proposals, y, n) ==
            LeftWith(t.rows, proposals, Beginnings(t.rows, |t.rows|)[y], n)
  {
    if n > 0 {
      var page, p := pages[|t.rows|], n - 1;
      GoingIsLeft(pages, t, proposals, y, p);
      NamesMeaning(pages, t, |proposals|, |t.rows|);
      OwnerMeaning(pages, t, |proposals|, |t.rows|, proposals[p].position);
      OwnerIsIt(t.rows, Owner(page.places, proposals[p].position), proposals[p].position, y);
    }
  }

  /** Item x shows what row i and those of the same answer give, with the proposals they show first and
      those that no tool row shows and that go with it. */
  predicate ShowsAll(items: seq<Item>, x: nat, t: Transcript, proposals: seq<Proposal>, i: nat) {
    && x < |items| && i < |t.rows| && Shows(items[x], t, i, |t.rows|)
    && HasCards(items[x], CardsOf(t.rows, |proposals|, i, |t.rows|) + LeftWith(t.rows, proposals, i, |proposals|))
  }

  lemma ItemReopened(pages: seq<Page>, t: Transcript, proposals: seq<Proposal>, x: nat)
    requires AllPages(pages, t, |proposals|) && x < |Beginnings(t.rows, |t.rows|)|
    ensures ShowsAll(WithUnnamed(pages[|t.rows|].items, pages[|t.rows|], proposals, Range(|proposals|)), x,
                     t, proposals, Beginnings(t.rows, |t.rows|)[x])
  {
    var page := pages[|t.rows|];
    PageIsFit(pages, t, |proposals|, |t.rows|);
    ItemShows(pages, t, |proposals|, |t.rows|, x);
    ItemCards(pages, t, |proposals|, |t.rows|, x);
    if page.items[x].AnswerItem? {
      UnnamedOnItem(page.items, page, proposals, x, |proposals|);
      GoingIsLeft(pages, t, proposals, x, |proposals|);
    } else {
      UnnamedKeepsOthers(page.items, page, proposals, Range(|proposals|), x);
    }
  }

  lemma {:induction false} UnnamedLength(items: seq<Item>, page: Page, proposals: seq<Proposal>, order: seq<nat>)
    requires forall k | 0 <= k < |order| :: order[k] < |proposals|
    ensures |WithUnnamed(items, page, proposals, order)| == |items|
  {
    if order != [] {
      UnnamedLength(items, page, proposals, order[..|order| - 1]);
    }
  }

  /** Reopening shows each user message and summary, and for each stretch between them with an
      assistant row one answer: its rows' texts, what their searches returned, each thought once, how
      the last of them that failed ended, the message it answers, and its proposals. */
  lemma ReopenedMeaning(t: Transcript, proposals: seq<Proposal>) returns (at: seq<nat>)
    requires InOrder(proposals)
    ensures Ascending(at) && forall i: nat :: i in at <==> Begins(t.rows, i)
    ensures |Reopened(t, proposals)| == |at|
    ensures forall x | 0 <= x < |at| :: ShowsAll(Reopened(t, proposals), x, t, proposals, at[x])
  {
    at := Beginnings(t.rows, |t.rows|);
    BeginningsMeaning(t.rows, |t.rows|);
    ListedInOrder(proposals, |proposals|);
    var pages := PagesOf(t, |proposals|);
    var page := pages[|t.rows|];
    PageIsFit(pages, t, |proposals|, |t.rows|);
    UnnamedLength(page.items, page, proposals, Range(|proposals|));
    forall x | 0 <= x < |at|
      ensures ShowsAll(Reopened(t, proposals), x, t, proposals, at[x])
    {
      ItemReopened(pages, t, proposals, x);
    }
  }
}
