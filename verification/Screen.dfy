/** The chat on screen: an answer as its events arrive, and the whole chat rebuilt from stored messages. */
module Screen {
  import opened Wrappers
  import opened Messages
  import opened Transcript
  import opened Proposals
  import opened Chat

  datatype Shape = Streamed | Finished | CutShort | Broken

  /** An answer: its text, the thoughts its searches returned, the proposals it made, and how it ended. */
  datatype View = View(text: string, sources: seq<Source>, cards: seq<nat>, shape: Shape, error: Option<Fault>)

  datatype Item =
    | UserItem(text: string, compacted: bool)
    | SummaryItem(text: string, compacted: bool)
    | AnswerItem(prompt: string, view: View, compacted: bool)

  // --- Sources ----------------------------------------------------------------------------

  predicate HasSource(sources: seq<Source>, id: string) {
    exists i | 0 <= i < |sources| :: sources[i].id == id
  }

  /** The list with another search's results at its end, but for thoughts that it has. */
  function WithSources(current: seq<Source>, added: seq<Source>): seq<Source>
    decreases |added|
  {
    if added == [] then current
    else if HasSource(current, added[0].id) then WithSources(current, added[1..])
    else WithSources(current + [added[0]], added[1..])
  }

  method AddSources(current: seq<Source>, added: seq<Source>) returns (result: seq<Source>)
    ensures result == WithSources(current, added)
  {
    result := current;
    for i := 0 to |added|
      invariant WithSources(result, added[i..]) == WithSources(current, added)
    {
      if !HasSource(result, added[i].id) {
        result := result + [added[i]];
      }
    }
  }

  predicate EachOnce(sources: seq<Source>) {
    forall i, j | 0 <= i < j < |sources| :: sources[i].id != sources[j].id
  }

  /** No thought is listed twice, the list only grows at its end, and every thought added is in it. */
  lemma {:induction false} WithSourcesMeaning(current: seq<Source>, added: seq<Source>)
    requires EachOnce(current)
    ensures EachOnce(WithSources(current, added))
    ensures current <= WithSources(current, added)
    ensures forall i | 0 <= i < |added| :: HasSource(WithSources(current, added), added[i].id)
    decreases |added|
  {
    if added != [] {
      var next := if HasSource(current, added[0].id) then current else current + [added[0]];
      WithSourcesMeaning(next, added[1..]);
      SourceStays(next, WithSources(current, added), added[0].id);
    }
  }

  lemma SourceStays(current: seq<Source>, longer: seq<Source>, id: string)
    requires current <= longer
    ensures HasSource(current, id) || (current != [] && current[|current| - 1].id == id) ==> HasSource(longer, id)
  {
    if i :| 0 <= i < |current| && current[i].id == id {
      assert longer[i].id == id;
    }
  }

  // --- The answer as its events arrive -----------------------------------------------------

  const BLANK := View("", [], [], Streamed, None)

  function WithEvent(view: View, event: Event): View {
    match event
    case Delta(text) => view.(text := view.text + text)
    case ToolEnded(_, Some(found)) => view.(sources := WithSources(view.sources, found))
    case Shown(proposal, _, _, _) => view.(cards := view.cards + [proposal])
    case Failure(fault) => view.(shape := Broken, error := Some(fault))
    case Done => view.(shape := Finished)
    case _ => view
  }

  function OnScreen(events: seq<Event>): View {
    if events == [] then BLANK else WithEvent(OnScreen(events[..|events| - 1]), events[|events| - 1])
  }

  /** However many searches an answer makes, it lists each thought once. */
  lemma {:induction false} ListedOnce(events: seq<Event>)
    ensures EachOnce(OnScreen(events).sources)
  {
    if events != [] {
      var before, last := events[..|events| - 1], events[|events| - 1];
      ListedOnce(before);
      if last.ToolEnded? && last.sources.Some? {
        WithSourcesMeaning(OnScreen(before).sources, last.sources.value);
      }
    }
  }

  // --- The chat rebuilt from stored messages -------------------------------------------------

  /** The item of an answer that a stored message belongs to. */
  datatype Place = Place(position: nat, item: nat)

  /** A partly rebuilt chat. While `open`, the last item is the answer that messages are added to.
      `named` are the proposals shown by their tool messages. */
  datatype Page = Page(items: seq<Item>, open: bool, prompt: string, named: set<nat>, places: seq<Place>)

  /** The error of a stored answer, whose own message is not stored. */
  function Unfinished(code: string): Fault {
    Fault(code, DID_NOT_FINISH)
  }

  function WithRow(view: View, row: Message, error: Option<string>): View {
    View(view.text + OrEmpty(row.content), view.sources, view.cards,
         if row.status == Complete && error.None? then view.shape
         else if row.status == Status.Cut && error.None? then CutShort else Broken,
         if row.status == Complete && error.None? then view.error else Some(Unfinished(error.GetOr("internal_error"))))
  }

  function WithResult(view: View, row: Message, count: nat, named: set<nat>): View {
    View(view.text,
         if row.details.Sources? then WithSources(view.sources, row.details.sources) else view.sources,
         if NewlyNamed(row, count, named) then view.cards + [row.details.proposal] else view.cards,
         view.shape, view.error)
  }

  /** Whether a tool row names a stored proposal that no earlier one names. */
  predicate NewlyNamed(row: Message, count: nat, named: set<nat>) {
    row.details.ProposalShown? && row.details.proposal < count && row.details.proposal !in named
  }

  function ErrorAt(errors: map<nat, string>, i: nat): Option<string> {
    if i in errors then Some(errors[i]) else None
  }

  predicate IsOpen(page: Page) {
    page.open && page.items != [] && page.items[|page.items| - 1].AnswerItem?
  }

  function OpenView(page: Page): View
    requires IsOpen(page)
  {
    page.items[|page.items| - 1].view
  }

  /** The page with its open answer changed, and the message at i placed there. */
  function Changed(page: Page, view: View, i: nat): Page
    requires IsOpen(page)
  {
    var last := |page.items| - 1;
    page.(items := page.items[last := page.items[last].(view := view)], places := page.places + [Place(i, last)])
  }

  function Opening(page: Page, compacted: bool): Page {
    if IsOpen(page) then page
    else page.(items := page.items + [AnswerItem(page.prompt, BLANK.(shape := Finished), compacted)], open := true)
  }

  /** The page after one more stored message. */
  function WithMessage(page: Page, row: Message, error: Option<string>, compacted: bool, count: nat, i: nat): Page {
    match row.role
    case User => page.(items := page.items + [UserItem(OrEmpty(row.content), compacted)], open := false,
                       prompt := OrEmpty(row.content))
    case Summary => page.(items := page.items + [SummaryItem(OrEmpty(row.content), compacted)], open := false)
    case Tool =>
      if !IsOpen(page) then page
      else
        Changed(page, WithResult(OpenView(page), row, count, page.named), i)
          .(named := page.named + if NewlyNamed(row, count, page.named) then {row.details.proposal} else {})
    case Assistant =>
      var opening := Opening(page, compacted);
      Changed(opening, WithRow(OpenView(opening), row, error), i)
  }

  /** The page of the first n messages. */
  function PageOf(t: Transcript, count: nat, n: nat): Page
    requires n <= |t.rows|
  {
    if n == 0 then Page([], false, "", {}, [])
    else WithMessage(PageOf(t, count, n - 1), t.rows[n - 1], ErrorAt(t.errors, n - 1), n - 1 in t.compacted,
                     count, n - 1)
  }

  /** The last item with a message at or before a position. */
  function Owner(places: seq<Place>, position: nat): Option<nat> {
    if places == [] then None
    else if places[|places| - 1].position <= position then Some(places[|places| - 1].item)
    else Owner(places[..|places| - 1], position)
  }

  function WithCard(items: seq<Item>, item: nat, proposal: nat): seq<Item> {
    if item < |items| && items[item].AnswerItem? then
      items[item := items[item].(view := items[item].view.(cards := items[item].view.cards + [proposal]))]
    else items
  }

  /** The items with the proposals that no tool message names, each with the answer it followed. */
  function WithUnnamed(items: seq<Item>, page: Page, proposals: seq<Proposal>, order: seq<nat>): seq<Item>
    requires forall k | 0 <= k < |order| :: order[k] < |proposals|
  {
    if order == [] then items
    else
      var before, p := WithUnnamed(items, page, proposals, order[..|order| - 1]), order[|order| - 1];
      if p in page.named then before
      else
        match Owner(page.places, proposals[p].position)
        case None => before
        case Some(item) => WithCard(before, item, p)
  }

  /** The chat as reopening the conversation shows it. */
  function Reopened(t: Transcript, proposals: seq<Proposal>): seq<Item> {
    var page := PageOf(t, |proposals|, |t.rows|);
    WithUnnamed(page.items, page, proposals, Listed(proposals, |proposals|))
  }

  // --- Both, as the browser computes them -----------------------------------------------------------

  /** Folds the events into the answer, one by one. */
  method ShowEvents(events: seq<Event>) returns (view: View)
    ensures view == OnScreen(events)
  {
    var text, sources, cards, shape, error := "", [], [], Streamed, None;
    for n := 0 to |events|
      invariant View(text, sources, cards, shape, error) == OnScreen(events[..n])
    {
      assert events[..n + 1][..n] == events[..n];
      match events[n] {
        case Delta(more) => text := text + more;
        case ToolEnded(_, found) => {
          if found.Some? {
            sources := AddSources(sources, found.value);
          }
        }
        case Shown(proposal, _, _, _) => cards := cards + [proposal];
        case Failure(fault) => shape, error := Broken, Some(fault);
        case Done => shape := Finished;
        case _ => {}
      }
    }
    assert events[..|events|] == events;
    view := View(text, sources, cards, shape, error);
  }

  /** Rebuilds the chat: first the messages, then the proposals that no message names. */
  method FromStored(t: Transcript, proposals: seq<Proposal>) returns (items: seq<Item>)
    ensures items == Reopened(t, proposals)
  {
    var page := Page([], false, "", {}, []);
    for n := 0 to |t.rows|
      invariant page == PageOf(t, |proposals|, n)
    {
      var row, compacted := t.rows[n], n in t.compacted;
      if row.role == Tool {
        if IsOpen(page) {
          page := AddResult(page, row, |proposals|, n);
        }
      } else if row.role == User {
        var text := OrEmpty(row.content);
        page := page.(items := page.items + [UserItem(text, compacted)], open := false, prompt := text);
      } else if row.role == Summary {
        page := page.(items := page.items + [SummaryItem(OrEmpty(row.content), compacted)], open := false);
      } else {
        page := AddAnswerRow(page, row, ErrorAt(t.errors, n), compacted, n);
      }
    }
    items := page.items;
    var order := Listed(proposals, |proposals|);
    for k := 0 to |order|
      invariant items == WithUnnamed(page.items, page, proposals, order[..k])
    {
      assert order[..k + 1][..k] == order[..k];
      var p := order[k];
      if p !in page.named {
        var owner := FindOwner(page.places, proposals[p].position);
        if owner.Some? {
          items := WithCard(items, owner.value, p);
        }
      }
    }
    assert order[..|order|] == order;
  }

  /** A tool message adds its sources and its proposal to the open answer. */
  method AddResult(page: Page, row: Message, count: nat, i: nat) returns (after: Page)
    requires IsOpen(page) && row.role == Tool
    ensures after == WithMessage(page, row, None, false, count, i)
  {
    var view := OpenView(page);
    if row.details.Sources? {
      var sources := AddSources(view.sources, row.details.sources);
      view := view.(sources := sources);
    }
    var named := page.named;
    if NewlyNamed(row, count, page.named) {
      view := view.(cards := view.cards + [row.details.proposal]);
      named := named + {row.details.proposal};
    }
    after := Changed(page, view, i).(named := named);
    assert page.named + {} == page.named;
  }

  /** An assistant message opens an answer if none is open, and adds its text and its end. */
  method AddAnswerRow(page: Page, row: Message, error: Option<string>, compacted: bool, i: nat) returns (after: Page)
    requires row.role == Assistant
    ensures forall count :: after == WithMessage(page, row, error, compacted, count, i)
  {
    var opening := page;
    if !IsOpen(page) {
      var answer := AnswerItem(page.prompt, BLANK.(shape := Finished), compacted);
      opening := page.(items := page.items + [answer], open := true);
    }
    var view := OpenView(opening);
    view := view.(text := view.text + OrEmpty(row.content));
    if row.status != Complete || error.Some? {
      view := view.(shape := if row.status == Status.Cut && error.None? then CutShort else Broken,
                    error := Some(Unfinished(error.GetOr("internal_error"))));
    }
    after := Changed(opening, view, i);
  }

  method FindOwner(places: seq<Place>, position: nat) returns (owner: Option<nat>)
    ensures owner == Owner(places, position)
  {
    var k := |places|;
    assert places[..k] == places;
    while k > 0
      invariant 0 <= k <= |places| && Owner(places[..k], position) == Owner(places, position)
    {
      k := k - 1;
      assert places[..k + 1][..k] == places[..k];
      if places[k].position <= position {
        return Some(places[k].item);
      }
    }
    owner := None;
  }
}
