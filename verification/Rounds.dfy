/** Reading one streamed model call: text as it arrives, and tool calls put together from pieces. */
module Rounds {
  import opened Wrappers
  import opened Text
  import opened Messages
  import opened Chat

  /** A piece of a tool call. A field it does not carry is empty. */
  datatype Piece = Piece(index: int, id: string, name: string, arguments: string)

  /** One choice of a chunk: text, pieces of calls, and why the call finished, if it did. */
  datatype Choice = Choice(content: string, pieces: seq<Piece>, finish: string)

  datatype Partial = Partial(id: string, name: string, arguments: string)

  const NOTHING := Partial("", "", "")

  function Held(calls: map<int, Partial>, index: int): Partial {
    if index in calls then calls[index] else NOTHING
  }

  // --- What a piece, a choice and a stream add ----------------------------------------------

  function Joined(call: Partial, piece: Piece): Partial {
    Partial(if piece.id != "" then piece.id else call.id,
            if call.name == "" then piece.name else call.name,
            call.arguments + piece.arguments)
  }

  /** The calls put together from pieces, in the order they arrived. */
  function Collected(pieces: seq<Piece>): map<int, Partial> {
    if pieces == [] then map[]
    else
      var before, piece := Collected(pieces[..|pieces| - 1]), pieces[|pieces| - 1];
      before[piece.index := Joined(Held(before, piece.index), piece)]
  }

  /** Whether the k-th piece is the first of its call to carry a name. */
  predicate Names(pieces: seq<Piece>, k: nat)
    requires k < |pieces|
  {
    pieces[k].name != "" && forall j | 0 <= j < k :: pieces[j].index == pieces[k].index ==> pieces[j].name == ""
  }

  /** No piece seen carries a name for this index. */
  predicate Unnamed(seen: seq<Piece>, index: int) {
    seen == [] ||
    (Unnamed(seen[..|seen| - 1], index) && (seen[|seen| - 1].index == index ==> seen[|seen| - 1].name == ""))
  }

  /** Whether a piece is the first of its call to carry a name, after the pieces seen. */
  predicate Starting(seen: seq<Piece>, piece: Piece) {
    piece.name != "" && Unnamed(seen, piece.index)
  }

  lemma {:induction false} UnnamedMeaning(seen: seq<Piece>, index: int)
    ensures Unnamed(seen, index) <==> forall j | 0 <= j < |seen| :: seen[j].index == index ==> seen[j].name == ""
  {
    if seen != [] {
      UnnamedMeaning(seen[..|seen| - 1], index);
      assert forall j | 0 <= j < |seen| - 1 :: seen[..|seen| - 1][j] == seen[j];
    }
  }

  lemma StartingIsNaming(pieces: seq<Piece>, k: nat)
    requires k < |pieces|
    ensures Starting(pieces[..k], pieces[k]) <==> Names(pieces, k)
  {
    UnnamedMeaning(pieces[..k], pieces[k].index);
    assert forall j | 0 <= j < k :: pieces[..k][j] == pieces[j];
  }

  /** The start events of the first n pieces. */
  function Starts(pieces: seq<Piece>, n: nat): seq<Event>
    requires n <= |pieces|
  {
    if n == 0 then []
    else
      Starts(pieces, n - 1) +
      (if Starting(pieces[..n - 1], pieces[n - 1]) then [ToolStarted(pieces[n - 1].name)] else [])
  }

  // --- What the calls are, said of each index on its own ---------------------------------------

  function Arguments(pieces: seq<Piece>, index: int): string {
    if pieces == [] then ""
    else
      Arguments(pieces[..|pieces| - 1], index) +
      if pieces[|pieces| - 1].index == index then pieces[|pieces| - 1].arguments else ""
  }

  predicate IsFirstName(pieces: seq<Piece>, index: int, name: string) {
    if forall k | 0 <= k < |pieces| :: pieces[k].index == index ==> pieces[k].name == "" then name == ""
    else exists k | 0 <= k < |pieces| :: pieces[k].index == index && Names(pieces, k) && name == pieces[k].name
  }

  /** Whether the k-th piece is the last of its call to carry an id. */
  predicate Identifies(pieces: seq<Piece>, k: nat)
    requires k < |pieces|
  {
    pieces[k].id != "" && forall j | k < j < |pieces| :: pieces[j].index == pieces[k].index ==> pieces[j].id == ""
  }

  predicate IsLastId(pieces: seq<Piece>, index: int, id: string) {
    if forall k | 0 <= k < |pieces| :: pieces[k].index == index ==> pieces[k].id == "" then id == ""
    else exists k | 0 <= k < |pieces| :: pieces[k].index == index && Identifies(pieces, k) && id == pieces[k].id
  }

  predicate HasIndex(pieces: seq<Piece>, index: int) {
    exists k | 0 <= k < |pieces| :: pieces[k].index == index
  }

  lemma NamesFrame(pieces: seq<Piece>, k: nat)
    requires k < |pieces| - 1
    ensures Names(pieces, k) <==> Names(pieces[..|pieces| - 1], k)
  {
  }

  /** However the pieces of several calls are mixed, each call has its own argument pieces, one after
      the other, its first name and its last id. */
  lemma {:induction false} CollectedMeaning(pieces: seq<Piece>, index: int)
    ensures index in Collected(pieces) <==> HasIndex(pieces, index)
    ensures Held(Collected(pieces), index).arguments == Arguments(pieces, index)
    ensures IsFirstName(pieces, index, Held(Collected(pieces), index).name)
    ensures IsLastId(pieces, index, Held(Collected(pieces), index).id)
  {
    if pieces != [] {
      var before, last := pieces[..|pieces| - 1], |pieces| - 1;
      CollectedMeaning(before, index);
      KeysStep(pieces, index);
      NameStep(pieces, index, Held(Collected(before), index).name);
      IdStep(pieces, index, Held(Collected(before), index).id);
    }
  }

  lemma KeysStep(pieces: seq<Piece>, index: int)
    requires pieces != []
    ensures HasIndex(pieces, index) <==> HasIndex(pieces[..|pieces| - 1], index) || pieces[|pieces| - 1].index == index
  {
    var before := pieces[..|pieces| - 1];
    assert forall k | 0 <= k < |before| :: before[k] == pieces[k];
    if k :| 0 <= k < |pieces| && pieces[k].index == index {
      assert k < |before| ==> before[k].index == index;
    }
  }

  lemma NameStep(pieces: seq<Piece>, index: int, name: string)
    requires pieces != [] && IsFirstName(pieces[..|pieces| - 1], index, name)
    ensures
      var last := pieces[|pieces| - 1];
      IsFirstName(pieces, index, if last.index == index && name == "" then last.name else name)
  {
    var before, last := pieces[..|pieces| - 1], |pieces| - 1;
    if forall k | 0 <= k < |before| :: before[k].index == index ==> before[k].name == "" {
      assert forall k | 0 <= k < last :: pieces[k] == before[k];
      if pieces[last].index == index && pieces[last].name != "" {
        assert Names(pieces, last);
      }
    } else {
      var k :| 0 <= k < |before| && before[k].index == index && Names(before, k) && name == before[k].name;
      NamesFrame(pieces, k);
      assert pieces[k] == before[k];
    }
  }

  lemma IdStep(pieces: seq<Piece>, index: int, id: string)
    requires pieces != [] && IsLastId(pieces[..|pieces| - 1], index, id)
    ensures IsLastId(pieces, index,
              if pieces[|pieces| - 1].index == index
                && pieces[|pieces| - 1].id != "" then pieces[|pieces| - 1].id else id)
  {
    var before, last := pieces[..|pieces| - 1], |pieces| - 1;
    if pieces[last].index == index && pieces[last].id != "" {
      assert Identifies(pieces, last);
    } else if forall k | 0 <= k < |before| :: before[k].index == index ==> before[k].id == "" {
      assert forall k | 0 <= k < last :: pieces[k] == before[k];
    } else {
      var k :| 0 <= k < |before| && before[k].index == index && Identifies(before, k) && id == before[k].id;
      IdentifiesStays(pieces, k);
    }
  }

  lemma IdentifiesStays(pieces: seq<Piece>, k: nat)
    requires k < |pieces| - 1 && Identifies(pieces[..|pieces| - 1], k)
    requires pieces[|pieces| - 1].index == pieces[k].index ==> pieces[|pieces| - 1].id == ""
    ensures Identifies(pieces, k)
  {
    var before := pieces[..|pieces| - 1];
    assert before[k] == pieces[k];
    assert forall j | 0 <= j < |before| :: pieces[j] == before[j];
  }

  /** The names of the pieces that are the first of their call to carry one. */
  function Naming(pieces: seq<Piece>, n: nat): seq<Event>
    requires n <= |pieces|
  {
    if n == 0 then []
    else Naming(pieces, n - 1) + (if Names(pieces, n - 1) then [ToolStarted(pieces[n - 1].name)] else [])
  }

  /** There is one start event for each call that gets a name: at its first piece with one. */
  lemma {:induction false} StartsAreNames(pieces: seq<Piece>, n: nat)
    requires n <= |pieces|
    ensures Starts(pieces, n) == Naming(pieces, n)
  {
    if n > 0 {
      StartsAreNames(pieces, n - 1);
      StartingIsNaming(pieces, n - 1);
    }
  }

  lemma OneStartEach(pieces: seq<Piece>, index: int)
    ensures Held(Collected(pieces), index).name != "" <==>
              exists k :: 0 <= k < |pieces| && pieces[k].index == index && Names(pieces, k)
    ensures forall j, k | 0 <= j < |pieces| && 0 <= k < |pieces| && Names(pieces, j) && Names(pieces, k)
                          && pieces[j].index == pieces[k].index :: j == k
    ensures forall k | 0 <= k < |pieces| && pieces[k].index == index && Names(pieces, k) ::
              pieces[k].name == Held(Collected(pieces), index).name
  {
    CollectedMeaning(pieces, index);
  }

  // --- Reading the stream -----------------------------------------------------------------------

  /** What a stream carries, one after the other. */
  datatype Token = Word(text: string) | Fragment(piece: Piece) | End(reason: string)

  function WordsIn(tokens: seq<Token>): string {
    if tokens == [] then ""
    else WordsIn(tokens[..|tokens| - 1]) + if tokens[|tokens| - 1].Word? then tokens[|tokens| - 1].text else ""
  }

  function PiecesIn(tokens: seq<Token>): seq<Piece> {
    if tokens == [] then []
    else PiecesIn(tokens[..|tokens| - 1]) + if tokens[|tokens| - 1].Fragment? then [tokens[|tokens| - 1].piece] else []
  }

  function ReasonIn(tokens: seq<Token>): string {
    if tokens == [] then ""
    else if tokens[|tokens| - 1].End? then tokens[|tokens| - 1].reason
    else ReasonIn(tokens[..|tokens| - 1])
  }

  /** What reading the token after these sends: text as it is, and a call's start at its name. */
  function SentFor(seen: seq<Token>, token: Token): seq<Event> {
    match token
    case Word(text) => [Delta(text)]
    case Fragment(piece) => if Starting(PiecesIn(seen), piece) then [ToolStarted(piece.name)] else []
    case End(_) => []
  }

  function Forwarded(tokens: seq<Token>): seq<Event> {
    if tokens == [] then []
    else Forwarded(tokens[..|tokens| - 1]) + SentFor(tokens[..|tokens| - 1], tokens[|tokens| - 1])
  }

  function Fragments(pieces: seq<Piece>): (tokens: seq<Token>)
    ensures |tokens| == |pieces| && forall k | 0 <= k < |pieces| :: tokens[k] == Fragment(pieces[k])
  {
    seq(|pieces|, k requires 0 <= k < |pieces| => Fragment(pieces[k]))
  }

  function WordOf(content: string): seq<Token> {
    if content == "" then [] else [Word(content)]
  }

  function EndOf(reason: string): seq<Token> {
    if reason == "" then [] else [End(reason)]
  }

  /** What a choice carries; a field it does not carry gives nothing. */
  function Tokens(choice: Choice): seq<Token> {
    WordOf(choice.content) + Fragments(choice.pieces) + EndOf(choice.finish)
  }

  function Stream(choices: seq<Choice>): seq<Token> {
    if choices == [] then [] else Stream(choices[..|choices| - 1]) + Tokens(choices[|choices| - 1])
  }

  lemma ConcatSnoc(texts: seq<string>, text: string)
    ensures Concat(texts + [text]) == Concat(texts) + text
  {
    assert (texts + [text])[..|texts|] == texts;
  }

  lemma CollectedSnoc(pieces: seq<Piece>, piece: Piece)
    ensures Collected(pieces + [piece]) ==
            Collected(pieces)[piece.index := Joined(Held(Collected(pieces), piece.index), piece)]
  {
    assert (pieces + [piece])[..|pieces|] == pieces;
  }

  /** What one more token adds. */
  lemma TokenSnoc(tokens: seq<Token>, token: Token)
    ensures WordsIn(tokens + [token]) == if token.Word? then WordsIn(tokens) + token.text else WordsIn(tokens)
    ensures PiecesIn(tokens + [token]) == if token.Fragment? then PiecesIn(tokens) + [token.piece] else PiecesIn(tokens)
    ensures ReasonIn(tokens + [token]) == if token.End? then token.reason else ReasonIn(tokens)
    ensures Forwarded(tokens + [token]) == Forwarded(tokens) + SentFor(tokens, token)
  {
    assert (tokens + [token])[..|tokens|] == tokens;
    Assoc(WordsIn(tokens), [], []);
    Assoc(PiecesIn(tokens), [], []);
  }

  lemma UnnamedYet(seen: seq<Piece>, piece: Piece)
    ensures Starting(seen, piece) <==> piece.name != "" && Held(Collected(seen), piece.index).name == ""
  {
    CollectedMeaning(seen, piece.index);
    UnnamedMeaning(seen, piece.index);
  }

  lemma PieceStep(seen: seq<Token>, piece: Piece)
    ensures var calls, more := Collected(PiecesIn(seen)), seen + [Fragment(piece)];
            && WordsIn(more) == WordsIn(seen) && ReasonIn(more) == ReasonIn(seen)
            && Collected(PiecesIn(more)) == calls[piece.index := Joined(Held(calls, piece.index), piece)]
            && Forwarded(more) == Forwarded(seen) +
               if piece.name != "" && Held(calls, piece.index).name == "" then [ToolStarted(piece.name)] else []
  {
    TokenSnoc(seen, Fragment(piece));
    CollectedSnoc(PiecesIn(seen), piece);
    UnnamedYet(PiecesIn(seen), piece);
  }

  lemma FragmentsStep(seen: seq<Token>, pieces: seq<Piece>, k: nat)
    requires k < |pieces|
    ensures seen + Fragments(pieces)[..k + 1] == seen + Fragments(pieces)[..k] + [Fragment(pieces[k])]
  {
  }

  /** What has been read of one model call. */
  class RoundState {
    var text: seq<string>
    /** The calls by index, and the indexes in the order they first arrived. */
    var calls: map<int, Partial>
    var order: seq<int>
    var finish: string

    ghost predicate Valid()
      reads this
    {
      && (forall i :: i in order <==> i in calls)
      && (forall j, k | 0 <= j < k < |order| :: order[j] != order[k])
    }

    /** The state is what these tokens give. */
    ghost predicate Heard(tokens: seq<Token>)
      reads this
    {
      Concat(text) == WordsIn(tokens) && calls == Collected(PiecesIn(tokens)) && finish == ReasonIn(tokens)
    }

    constructor ()
      ensures Valid() && Heard([])
    {
      text, calls, order, finish := [], map[], [], "";
    }

    /** Sets the call of an index, which comes last in the order if it is new. */
    method Put(index: int, call: Partial)
      requires Valid()
      modifies this`calls, this`order
      ensures Valid() && calls == old(calls)[index := call]
    {
      if index !in calls {
        order := order + [index];
      }
      calls := calls[index := call];
    }

    /** One more piece of a call, after the tokens seen. */
    method ReadPiece(ghost seen: seq<Token>, piece: Piece) returns (events: seq<Event>)
      requires Valid() && Heard(seen)
      modifies this
      ensures Valid() && Heard(seen + [Fragment(piece)])
      ensures Forwarded(seen) + events == Forwarded(seen + [Fragment(piece)])
    {
      PieceStep(seen, piece);
      events := [];
      var call := Held(calls, piece.index);
      if piece.id != "" {
        call := call.(id := piece.id);
      }
      if piece.name != "" && call.name == "" {
        call := call.(name := piece.name);
        events := [ToolStarted(piece.name)];
      }
      Put(piece.index, call.(arguments := call.arguments + piece.arguments));
    }

    method ReadPieces(ghost seen: seq<Token>, pieces: seq<Piece>) returns (events: seq<Event>)
      requires Valid() && Heard(seen)
      modifies this
      ensures Valid() && Heard(seen + Fragments(pieces))
      ensures Forwarded(seen) + events == Forwarded(seen + Fragments(pieces))
    {
      events := [];
      ghost var tokens := Fragments(pieces);
      assert seen + tokens[..0] == seen;
      for k := 0 to |pieces|
        invariant Valid() && Heard(seen + tokens[..k])
        invariant Forwarded(seen) + events == Forwarded(seen + tokens[..k])
      {
        FragmentsStep(seen, pieces, k);
        var more := ReadPiece(seen + tokens[..k], pieces[k]);
        Assoc(Forwarded(seen), events, more);
        events := events + more;
      }
      assert tokens[..|pieces|] == tokens;
    }

    method ReadContent(ghost seen: seq<Token>, content: string) returns (events: seq<Event>)
      requires Valid() && Heard(seen)
      modifies this`text
      ensures Heard(seen + WordOf(content))
      ensures Forwarded(seen) + events == Forwarded(seen + WordOf(content))
    {
      if content == "" {
        events := [];
        Assoc(seen, [], []);
        Assoc(Forwarded(seen), [], []);
      } else {
        TokenSnoc(seen, Word(content));
        ConcatSnoc(text, content);
        text := text + [content];
        events := [Delta(content)];
      }
    }

    method ReadFinish(ghost seen: seq<Token>, reason: string)
      requires Valid() && Heard(seen)
      modifies this`finish
      ensures Heard(seen + EndOf(reason))
      ensures Forwarded(seen) == Forwarded(seen + EndOf(reason))
    {
      if reason == "" {
        Assoc(seen, [], []);
      } else {
        TokenSnoc(seen, End(reason));
        Assoc(Forwarded(seen), [], []);
        finish := reason;
      }
    }

    /** One more choice: its text, then its pieces, then its finish reason. */
    method ReadChoice(ghost seen: seq<Token>, choice: Choice) returns (events: seq<Event>)
      requires Valid() && Heard(seen)
      modifies this
      ensures Valid() && Heard(seen + Tokens(choice))
      ensures Forwarded(seen) + events == Forwarded(seen + Tokens(choice))
    {
      ghost var words, fragments := WordOf(choice.content), Fragments(choice.pieces);
      var said := ReadContent(seen, choice.content);
      var started := ReadPieces(seen + words, choice.pieces);
      ReadFinish(seen + words + fragments, choice.finish);
      events := said + started;
      Assoc(Forwarded(seen), said, started);
      Assoc(seen, words, fragments);
      Assoc(seen, words + fragments, EndOf(choice.finish));
    }

    /** Reads a whole stream: text is sent as it arrives, calls are put together. */
    method Read(choices: seq<Choice>) returns (events: seq<Event>)
      requires Valid() && Heard([])
      modifies this
      ensures Valid() && Heard(Stream(choices))
      ensures events == Forwarded(Stream(choices))
    {
      events := [];
      for n := 0 to |choices|
        invariant Valid() && Heard(Stream(choices[..n]))
        invariant events == Forwarded(Stream(choices[..n]))
      {
        assert choices[..n + 1][..n] == choices[..n];
        var more := ReadChoice(Stream(choices[..n]), choices[n]);
        events := events + more;
      }
      assert choices[..|choices|] == choices;
    }

    /** The calls in the order of their indexes, each with its own id or a spare one. */
    method ToolCalls(spare: int -> string) returns (indexes: seq<int>, result: seq<Call>)
      requires Valid()
      ensures Ascending(indexes) && (forall i :: i in indexes <==> i in calls)
      ensures |result| == |indexes|
      ensures forall k | 0 <= k < |indexes| ::
                indexes[k] in calls && result[k] == CallAt(calls[indexes[k]], spare(indexes[k]))
    {
      indexes := [];
      for n := 0 to |order|
        invariant Ascending(indexes)
        invariant forall i :: i in indexes <==> i in order[..n]
      {
        assert order[n] !in order[..n];
        InsertedMeaning(indexes, order[n]);
        indexes := Inserted(indexes, order[n]);
        assert order[..n + 1] == order[..n] + [order[n]];
      }
      assert order[..|order|] == order;
      result := [];
      for k := 0 to |indexes|
        invariant |result| == k
        invariant forall j | 0 <= j < k ::
                    indexes[j] in calls && result[j] == CallAt(calls[indexes[j]], spare(indexes[j]))
      {
        assert indexes[k] in indexes;
        result := result + [CallAt(calls[indexes[k]], spare(indexes[k]))];
      }
    }
  }

  function CallAt(call: Partial, spare: string): Call {
    Call(if call.id != "" then call.id else spare, call.name, call.arguments)
  }

  function Inserted(sorted: seq<int>, i: int): seq<int> {
    if sorted == [] || sorted[|sorted| - 1] < i then sorted + [i]
    else Inserted(sorted[..|sorted| - 1], i) + [sorted[|sorted| - 1]]
  }

  lemma {:induction false} InsertedHolds(sorted: seq<int>, i: int)
    ensures forall j :: j in Inserted(sorted, i) <==> j in sorted || j == i
  {
    if sorted != [] && i <= sorted[|sorted| - 1] {
      var before, last := sorted[..|sorted| - 1], sorted[|sorted| - 1];
      InsertedHolds(before, i);
      assert sorted == before + [last];
    }
  }

  lemma {:induction false} InsertedMeaning(sorted: seq<int>, i: int)
    requires Ascending(sorted) && i !in sorted
    ensures Ascending(Inserted(sorted, i))
    ensures forall j :: j in Inserted(sorted, i) <==> j in sorted || j == i
  {
    InsertedHolds(sorted, i);
    if sorted != [] && i <= sorted[|sorted| - 1] {
      var before := sorted[..|sorted| - 1];
      InsertedMeaning(before, i);
      assert forall j | 0 <= j < |Inserted(before, i)| :: Inserted(before, i)[j] in Inserted(before, i);
    }
  }

  // --- What is forwarded ----------------------------------------------------------------------

  /** The text that events spell out. */
  function Spelled(events: seq<Event>): string {
    if events == [] then ""
    else Spelled(events[..|events| - 1]) + if events[|events| - 1].Delta? then events[|events| - 1].text else ""
  }

  /** The start events among them. */
  function Started(events: seq<Event>): seq<Event> {
    if events == [] then []
    else Started(events[..|events| - 1]) + if events[|events| - 1].ToolStarted? then [events[|events| - 1]] else []
  }

  lemma EventSnoc(events: seq<Event>, event: Event)
    ensures Spelled(events + [event]) == Spelled(events) + if event.Delta? then event.text else ""
    ensures Started(events + [event]) == Started(events) + if event.ToolStarted? then [event] else []
  {
    assert (events + [event])[..|events|] == events;
  }

  lemma StartsSnoc(pieces: seq<Piece>, piece: Piece)
    ensures Starts(pieces + [piece], |pieces| + 1) ==
            Starts(pieces, |pieces|) + if Starting(pieces, piece) then [ToolStarted(piece.name)] else []
  {
    assert (pieces + [piece])[..|pieces|] == pieces;
    StartsPrefix(pieces + [piece], pieces, |pieces|);
  }

  lemma {:induction false} StartsPrefix(longer: seq<Piece>, pieces: seq<Piece>, n: nat)
    requires n <= |pieces| && pieces <= longer
    ensures Starts(longer, n) == Starts(pieces, n)
  {
    if n > 0 {
      StartsPrefix(longer, pieces, n - 1);
      assert longer[..n - 1] == pieces[..n - 1];
    }
  }

  /** The text sent is the whole answer. */
  lemma {:induction false} ForwardedText(tokens: seq<Token>)
    ensures Spelled(Forwarded(tokens)) == WordsIn(tokens)
  {
    if tokens != [] {
      var seen, token := tokens[..|tokens| - 1], tokens[|tokens| - 1];
      ForwardedText(seen);
      var sent := SentFor(seen, token);
      if sent == [] {
        Assoc(Forwarded(seen), [], []);
        Assoc(WordsIn(seen), [], []);
      } else {
        assert sent == [sent[0]];
        EventSnoc(Forwarded(seen), sent[0]);
      }
    }
  }

  lemma {:induction false} StartsSent(tokens: seq<Token>)
    ensures Started(Forwarded(tokens)) == Starts(PiecesIn(tokens), |PiecesIn(tokens)|)
  {
    if tokens != [] {
      var seen, token := tokens[..|tokens| - 1], tokens[|tokens| - 1];
      StartsSent(seen);
      var sent := SentFor(seen, token);
      if token.Fragment? {
        StartsSnoc(PiecesIn(seen), token.piece);
      } else {
        Assoc(PiecesIn(seen), [], []);
      }
      if sent == [] {
        Assoc(Forwarded(seen), [], []);
      } else {
        assert sent == [sent[0]];
        EventSnoc(Forwarded(seen), sent[0]);
      }
    }
  }

  /** The starts sent are those of the calls that get a name, in the order their names arrive. */
  lemma ForwardedStarts(tokens: seq<Token>)
    ensures Started(Forwarded(tokens)) == Naming(PiecesIn(tokens), |PiecesIn(tokens)|)
  {
    StartsSent(tokens);
    StartsAreNames(PiecesIn(tokens), |PiecesIn(tokens)|);
  }

  // --- As steps of the conversation ---------------------------------------------------------------

  predicate CanForward(event: Event) {
    (event.Delta? && event.text != "") || (event.ToolStarted? && event.name != "")
  }

  predicate AllForward(events: seq<Event>) {
    forall k | 0 <= k < |events| :: CanForward(events[k])
  }

  lemma {:induction false} ForwardedCan(tokens: seq<Token>)
    requires forall k | 0 <= k < |tokens| :: tokens[k].Word? ==> tokens[k].text != ""
    ensures AllForward(Forwarded(tokens))
  {
    if tokens != [] {
      ForwardedCan(tokens[..|tokens| - 1]);
    }
  }

  /** A new round reads a whole stream. */
  method HearStream(choices: seq<Choice>) returns (state: RoundState, events: seq<Event>)
    ensures fresh(state) && state.Valid() && state.Heard(Stream(choices))
    ensures events == Forwarded(Stream(choices)) && AllForward(events)
  {
    state := new RoundState();
    events := state.Read(choices);
    StreamWords(choices);
    ForwardedCan(Stream(choices));
  }

  lemma {:induction false} StreamWords(choices: seq<Choice>)
    ensures forall k | 0 <= k < |Stream(choices)| :: Stream(choices)[k].Word? ==> Stream(choices)[k].text != ""
  {
    if choices != [] {
      StreamWords(choices[..|choices| - 1]);
    }
  }

  /** The conversation after a turn forwarded these events. */
  function Fed(s: State, events: seq<Event>): (after: State)
    requires Reading(s) && forall k | 0 <= k < |events| :: CanForward(events[k])
    ensures Reading(after)
    decreases |events|
  {
    if events == [] then s
    else
      var before, last := Fed(s, events[..|events| - 1]), events[|events| - 1];
      assert CanForward(last);
      Apply(before, if last.Delta? then ReadText(last.text) else NameTool(last.name))
  }

  /** Reading a stream takes the turn through steps after which it holds the stream's whole text and
      has sent its events; nothing else changes. */
  lemma {:induction false} FedMeaning(s: State, events: seq<Event>)
    requires Reading(s) && forall k | 0 <= k < |events| :: CanForward(events[k])
    ensures Fed(s, events) == s.(turn := Some(s.turn.value.(answer := s.turn.value.answer + Spelled(events),
                                                            events := s.turn.value.events + events)))
    decreases |events|
  {
    var turn := s.turn.value;
    if events == [] {
      Assoc(turn.answer, [], []);
      Assoc(turn.events, [], []);
    } else {
      var before, last := events[..|events| - 1], events[|events| - 1];
      FedMeaning(s, before);
      assert events == before + [last];
      Assoc(turn.events, before, [last]);
      Assoc(turn.answer, Spelled(before), if last.Delta? then last.text else "");
      Assoc(turn.answer + Spelled(before), [], []);
    }
  }
}
