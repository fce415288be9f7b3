# A model of the thought store and its chat

The repository keeps a user's thoughts, finds them again by meaning through a search index of
embedded pieces, and lets the user talk about them with a model that searches them and proposes new
ones. This project models the parts with a protocol or an incremental algorithm, and proves what
they keep over every run and every input.

| files | what they model |
|---|---|
| `Chunking` | cutting raw text into overlapping ranges, and numbering the pieces that are embedded |
| `Embeddings` | one embeddings call in batches, and putting the rows back in order |
| `IndexState`, `IndexInvariants`, `IndexRuns`, `IndexProgress`, `IndexRows`, `Versions` | thoughts, index versions and entries as a state machine: add, update, delete, search with backfill, and a rebuild's batches, swap and drop |
| `Completeness`, `HiddenPieces` | when an index has all pieces of a thought, request by request, and pieces that no request fills in |
| `Unseen`, `RebuildRuns` | a rebuild among other requests as a run of that machine: it is unseen until it swaps, complete when it has, and what it does when every thought goes |
| `Calls` | the call for a query and pieces: when it works, and what the index then has |
| `IndexStore`, `Rebuild` | the same as classes and loops over rows, each method proved against its step, or a rebuild's against its run of steps |
| `Commands`, `Messages`, `Transcript`, `Compactions` | stored messages, the context made from them, summary drafts and their acceptance |
| `RawText`, `Proposals`, `Lifecycle`, `Discussions` | proposals: their raw text, holding, replacing, confirming |
| `Rounds` | putting a streamed model call together from its pieces |
| `Chat`, `ChatInvariants`, `ChatRuns`, `Contexts` | a conversation as a state machine: turns, drafts, acceptances, offers, confirms; its invariants; what holds over runs; what a model is told |
| `Scripts` | what the rounds of a turn meet, the rows they leave and how the turn ends, said without the machine |
| `Conversations`, `Turns`, `Traces` | the conversation row and a running turn as classes; a whole turn is proved to be steps of that machine |
| `Screen`, `LiveAnswers`, `Reload`, `Pages` | the answer folded from events, the chat rebuilt from rows, what each shows, and when they agree |
| `EventStream`, `Wire` | printing events and parsing them from chunks; a turn's answer from its bytes |
| `RateLimiter`, `Cookies` | the token bucket and chunked cookies |
| `Text`, `Wrappers` | whitespace, joining, optional values |

## How it is modelled

- A request is one atomic step. A turn is many steps: each delta, tool call, stored row and event is
  one, so that it can stop anywhere, and confirms can come in between. While a turn runs it holds the
  claim on its conversation, so nothing else does.
- A provider is an arbitrary function (embeddings) or arbitrary step inputs (chat): it may refuse, send
  rows in any order, stop anywhere, send call pieces in any mixture. A vector is the term that says
  which model made it from which text with which length, which is the most general embedding.
- Rows are only ever added, so the columns that change, the error code and the compacted flag, are kept
  beside them. A row's index in the model is its position; `Conversation` keeps the position column and
  proves the two equal.
- Ids that the database or a UUID would give are parameters known to be unused, or the next number.
- A draft's `covered` set and a summary row's `origin` are history: they record what a summary was
  written from, so that coverage can be stated. A draft that is accepted is one issued earlier.

## What turned out not to hold

For each there is a concrete input, an exact condition, or both.

- **Index versions repeat.** A dropped building index's version is given again
  (`Versions.VersionGivenAgain`). Over all runs, a dropped version can be given again exactly when it was
  the latest (`Versions.VersionFreed`).
- **New tags can hide missing pieces.** After a store whose call failed, a change of tags writes the head
  only, and backfill judges by the head: the rest stays missing over every run that neither changes nor
  deletes the thought nor swaps in another index (`HiddenPieces.TagsHideMissingPieces`, with a note of one
  letter in `HiddenPieces.TagHidesRawText`). New tags leave an index whole exactly when they do not write
  it or it has the other pieces (`Completeness.RetaggedWhole`). A rebuild repairs what is hidden
  (`RebuildRuns.RebuiltIsComplete`).
- **A range may start with whitespace**, against the comment at
  `backend/app/thoughts/chunking.py:75` (`Chunking.RangeMayStartBlank`); it does exactly when the break
  before it fell before whitespace and no word starts in the overlap (`Chunking.RangeStartsBlank`).
- **A rebuild can stop on its assertion** at `backend/app/reembed.py:128`, which says that the user has
  thoughts: exactly when every thought is deleted after the check for them at line 182 and before the first
  batch (`Rebuild.RebuildUser`). That can be while a leftover is dropped, or, as each query sees what is
  committed by then, between the two queries. From every state there is such a run
  (`RebuildRuns.CanFindNothing`); one from an empty user is `RebuildRuns.ThoughtDeletedMeanwhile`.
- **The held proposal is not "the latest with a part not saved"**, as `backend/app/chat/proposal.py:5` and
  `backend/app/models/conversation.py:29` say: it is the last one written, while that one has an unsaved
  part. Once that is saved, an earlier unsaved one is not held again
  (`Lifecycle.SavedLastHidesEarlier`, as a run in `ChatRuns.UnsavedLeftBehind`; exactly when the two
  agree is `Lifecycle.HeldIsLatestUnsaved`).
- **Reopening does not always show what was on screen.** An error is reopened with its code and a fixed
  message, not its own; text of a round that the browser left, or that an error after its stream stopped,
  is not stored, and such an ending is reopened as done. `Reload.ReloadRestatesError` says exactly when the
  two agree but for that message, `Reload.LiveEqualsReload` exactly when they are the same.
- **A stream with CR CR LF may read differently by its split** (`EventStream.SplitMattersAfterCrCrLf`). Having
  none is enough for the split not to matter (`EventStream.SplitDoesNotMatter`), and is not needed: with
  fewer than two line ends no split gives an event (`EventStream.NoEventWithoutBlankLine`), as for CR CR LF
  alone (`EventStream.CrCrLfAlone`).
- **A limiter with a capacity below one never allows anything**, however long a client waits as told
  (`RateLimiter.WaitIsEnough`).
- **An empty cookie value reads as no cookie** (`Cookies.WriteThenRead`).

## Model

| member | source | states |
|---|---|---|
| Chunking.BestBreakIsBest | backend/app/thoughts/chunking.py:41-54 | a long text is cut 400 to 1000 characters on, at a paragraph end if the window has one, else a sentence end, else a space, and at the one of that kind nearest to 800 |
| Chunking.ParagraphsExact | backend/app/thoughts/chunking.py:51 | the paragraph ends found are exactly those of whitespace runs with two newlines |
| Chunking.SentencesExact | backend/app/thoughts/chunking.py:18 | the sentence ends found are exactly the newlines and the stops before whitespace |
| Chunking.FindNextStart | backend/app/thoughts/chunking.py:57-64 | the two loops find the next start that the specification names |
| Chunking.WordStartMeaning | backend/app/thoughts/chunking.py:57-64 | the start found is the first place in the overlap where a word begins after whitespace, or the previous end when there is none |
| Chunking.RangeStartsBlank | backend/app/thoughts/chunking.py:67-84 | range i of a raw text starts with whitespace exactly when it starts where the cut before ended, that cut ended before whitespace, and no word starts among its last 100 characters; the first range never does |
| Chunking.RangeMayStartBlank | backend/app/thoughts/chunking.py:75-80 | a raw text whose second range starts with a space |
| Chunking.ChunkRawText | backend/app/thoughts/chunking.py:67-84 | the loop computes the specified ranges |
| Chunking.RangesOnlyWhenItAdds | backend/app/thoughts/chunking.py:37-70 | no range exactly when there is no raw text, it is blank, or it has just the summary's words, but for the case of letters |
| Text.WordsMeaning | backend/app/thoughts/chunking.py:37-38 | the words of a text stand in it in order, each between whitespace, and all else is whitespace |
| Text.SameWhenNormalized | backend/app/thoughts/chunking.py:37-38 | two texts are normalized to the same if and only if they have the same words, but for the case of letters |
| Chunking.ChunkerPromise | backend/app/thoughts/chunking.py:67-84 | every character that is not whitespace is covered; each range is not empty, at most 1000 long and ends with text; starts advance by at least 300, neighbours share at most 100; so there are at most 1 + (length - 1) / 300 ranges |
| Chunking.AtMostTwo | backend/app/thoughts/chunking.py:57-84 | no character lies in more than two ranges |
| Chunking.CollectPieces | backend/app/thoughts/chunking.py:87-92 | the pieces, head first, as specified |
| Chunking.HeadMeaning | backend/app/thoughts/chunking.py:29-34 | the head is the title, then a line with each tag after a `#` just when there are tags, then the summary |
| Chunking.PiecesPointAtText | backend/app/thoughts/chunking.py:87-92 | pieces are numbered from the head, and each later one holds the raw text of its own character range |
| Chunking.TagsChangeHeadOnly | backend/app/thoughts/chunking.py:29-34 | new tags change no piece but the head |
| Embeddings.EmbedTexts | backend/app/thoughts/embeddings.py:84-148 | the batches are sent and gathered as specified, with every error case |
| Embeddings.SortedRowsAlign | backend/app/thoughts/embeddings.py:130-133 | rows in any order are put at their own texts |
| Embeddings.EmbeddedAligned | backend/app/thoughts/embeddings.py:119-148 | over any number of batches vector i is the model's for text i, and all have one length; otherwise the call is an error |
| Embeddings.EmbeddedExactly | backend/app/thoughts/embeddings.py:84-148 | a call for some texts gives vectors of a length exactly when the provider answers every batch of at most 64 of them with a row for each text, all of that length |
| Calls.AnswerExactly | backend/app/thoughts/indexing.py:193-199 | the same of the call for a query and pieces: it is answered exactly when every batch is, in full and with vectors of one length |
| IndexInvariants.StepKeeps | backend/app/thoughts/store.py:147-193 | every request keeps the entries those of current pieces of current thoughts, as their own index's model embeds them, and the indexes distinct |
| IndexRuns.IndexesAreSound | backend/app/thoughts/store.py:340-410 | over any run, whatever calls fail, an entry of an index holds its model's vector of its dimension for a current piece, with the right character range |
| IndexRuns.OneOfEach | backend/app/thoughts/indexing.py:84-111 | at most one index is active and one building at any time, and their versions differ |
| Completeness.StepKeepsWhole | backend/app/thoughts/store.py:385-410 | a request leaves an index with all pieces of each thought whose head it has, if it was so, if and only if it is not a change of tags that writes the index where the other pieces are missing |
| Completeness.RunKeepsWhole | backend/app/thoughts/store.py:385-410 | over any run in which each change of tags finds the other pieces in the index when it writes it, the index stays so, whatever the other indexes lack; one that is dropped meanwhile need not have been so |
| Completeness.SwapIsComplete | backend/app/reembed.py:141-169 | just after a swap the new active index holds every piece of every thought |
| Completeness.RetaggedWhole | backend/app/thoughts/store.py:393-397 | a tags-only update leaves an index whole if and only if it does not write it or the raw-text pieces are there |
| Completeness.TagsUpdateStaysWhole | backend/app/thoughts/store.py:393-397 | a tags-only update leaves all indexes whole if and only if each index it writes has the thought's raw-text pieces |
| HiddenPieces.HiddenIsNotMissing | backend/app/thoughts/indexing.py:47-63 | a thought with its head in the active index does not count as missing there, whatever else the index lacks of it |
| HiddenPieces.HiddenStays | backend/app/thoughts/indexing.py:47-71 | a piece that the active index lacks of a thought whose head it has is filled in by no search, backfill, rebuild batch or request about another thought, over any run |
| HiddenPieces.TagsHideMissingPieces | backend/app/thoughts/store.py:393-397 | two requests after which a piece is hidden so |
| HiddenPieces.TagHidesRawText | backend/app/thoughts/store.py:393-397 | the same with the chunker itself and a note of one letter |
| IndexRuns.RebuildSparesActive | backend/app/reembed.py:73-102 | a rebuild's batches and drops leave the active index and its entries unchanged |
| IndexRuns.RetiredForGood | backend/app/reembed.py:157-169 | a retired index stays as it is and never has an entry again |
| IndexProgress.BatchIsOldestThatFit | backend/app/thoughts/indexing.py:47-71 | a batch is the longest prefix of the missing thoughts, oldest first, within the budget, or one thought; empty only when none is missing |
| IndexProgress.FillMakesProgress | backend/app/reembed.py:85-102 | a batch that works strictly lowers the number of missing thoughts |
| Versions.NewVersion | backend/app/thoughts/indexing.py:89-101 | the building index gets the version after the latest |
| Versions.VersionGivenAgain | backend/app/reembed.py:68-70 | a dropped index's version is given to the next one |
| Versions.VersionFreed | backend/app/reembed.py:68-70 | over all runs after a drop, some index can get the dropped version if and only if that was the latest |
| Unseen.RebuildIsUnseen | backend/app/reembed.py:73-129 | over any run of a rebuild and other requests without a swap, thoughts, entries and indexes but the building one are just as the requests alone would leave them, versions aside |
| RebuildRuns.RebuiltIsComplete | backend/app/reembed.py:132-169 | the index that such a run swaps in at its end holds every piece of every thought, whatever the other indexes lacked, if each tags-only update that wrote it found the raw-text pieces there |
| RebuildRuns.CanFindNothing | backend/app/reembed.py:114-128 | from any state, with a leftover or without, requests and the drop of the leftover lead to one with no thought and no building index, before any batch |
| RebuildRuns.ThoughtDeletedMeanwhile | backend/app/reembed.py:182-191 | a run from an empty user to a thought, its deletion, and a fill that makes no index |
| IndexStore.SearchStore.MissingThoughts | backend/app/thoughts/indexing.py:47-71 | the loop with its budget chooses the specified batch |
| IndexStore.SearchStore.CountMissing | backend/app/thoughts/indexing.py:74-81 | the number of thoughts without a head in the index |
| IndexStore.SearchStore.CreateIndex | backend/app/thoughts/indexing.py:84-111 | the index with that status, if there is one; else a new one with that model, dimension and status and the version after the latest |
| IndexStore.SearchStore.WriteEntries | backend/app/thoughts/indexing.py:121-149 | each entry gets its own piece's vector while the position advances, and replaces the old entry of its chunk |
| IndexStore.SearchStore.EmbedForIndex | backend/app/thoughts/indexing.py:161-230 | one call for query and pieces; it works exactly when the provider answers every batch of the texts in full, with vectors of one length that is the index's, if there is one; else no entry is written; the query's vector is the query's |
| IndexStore.SearchStore.IndexThought | backend/app/thoughts/store.py:147-193 | the new pieces with some missing thoughts go to the active index, and the new pieces to the building one; each index whose call works has all of them afterwards, and every piece of the thoughts carried along |
| IndexStore.SearchStore.AddThought | backend/app/thoughts/store.py:196-238 | the thought is stored exactly once, whatever its calls do; if the call for the active index works, that index has each of its pieces |
| IndexStore.SearchStore.UpdateThought | backend/app/thoughts/store.py:340-410 | old entries go, then only what changed is indexed again: if the call for the active index works, that index has each new piece; no other thought changes |
| IndexStore.SearchStore.DeleteThought | backend/app/thoughts/store.py:413-420 | the thought and its entries go together |
| IndexStore.SearchStore.Search | backend/app/thoughts/search.py:225-253 | the query, after the model's instruction, is embedded with some missing thoughts in one call; there is a vector to compare with exactly when some thought has the tags and the call works, and it is the query's, by the active index's model; the thoughts carried along are then in the index |
| Rebuild.FillBatch | backend/app/reembed.py:85-102 | one batch is one fill of the model, and nothing when no thought is missing; it works exactly when the provider answers its texts in full, with vectors of one length that is the building index's, if there is one |
| Rebuild.FillIndex | backend/app/reembed.py:73-102 | the loop ends; all it did is a run without a swap, in which the only requests are the others'; it fails exactly when one of its batches does; without a failure nothing is missing, and there is no index only when there was no thought |
| Rebuild.StartRebuild | backend/app/reembed.py:105-129 | a run without a swap: a leftover is refused without `restart`, else dropped; after a failure none is building; nothing to index exactly when no thought is left and no batch was made |
| Rebuild.FinishRebuild | backend/app/reembed.py:132-169 | after at most three fills a run that ends in the swap exactly when one of them works and nothing is missing after it, or one without a swap after which none is building |
| Rebuild.RebuildUser | backend/app/reembed.py:172-196 | each outcome, with when it occurs, is a run among the other requests: skipped, nothing; failed or stopped on the assertion, no swap, and all but the building index as the requests alone leave it; rebuilt, exactly when all batches of a fill work and nothing is missing after one of three, one swap at the end, the old index retired, and the new one complete if each tags-only update that wrote it found the raw-text pieces there |
| Messages.GroupedMeansNoOrphan | backend/app/chat/prompt.py:239-252 | in a grouped context each tool result follows the assistant message with its call, with only that group's results between |
| Text.StripMeaning | backend/app/chat/commands.py:26-33 | stripping takes just the whitespace at both ends away |
| Commands.CommandMeaning | backend/app/chat/commands.py:20-44 | of a command that takes text the model is given the text, and a turn answers it exactly when it has some; a command without it, or one that takes none, is given whole and not answered |
| Commands.PlainMeaning | backend/app/chat/commands.py:31-33 | any other message is given without the whitespace around it, and answered unless it is blank |
| Messages.DropHeldNoteKeeps | backend/app/chat/prompt.py:216-223 | dropping the note loses nothing that was said and separates no result from its call |
| Transcript.PlanCompaction | backend/app/chat/compaction.py:46-57 | the loop computes the specified plan |
| Transcript.ReplacedMeaning | backend/app/chat/compaction.py:46-57 | a plan replaces every live message through its last, and the message after it is not a tool result |
| Transcript.KeptMeaning | backend/app/chat/compaction.py:46-66 | at most `keep_recent` messages are kept, fewer only to skip tool results; nothing is replaced exactly when there are no more than that |
| Transcript.BuiltContext | backend/app/chat/prompt.py:261-287 | a context built from grouped rows is grouped, and apart from system messages says what the live rows say |
| Compactions.DraftNowSound | backend/app/chat/compaction.py:46-57 | a draft covers every message through its position, directly or through the latest summary, and splits no group |
| Compactions.StaleIsRefused | backend/app/chat/compaction.py:143-149 | a draft is refused exactly when summaries accepted since replaced all that it would |
| Compactions.AcceptedKeeps | backend/app/chat/compaction.py:134-163 | an accepted draft leaves one live summary, its own, and just the messages through its position compacted |
| RawText.FitMessages | backend/app/chat/proposal.py:92-108 | the backward loop computes the specified raw text |
| RawText.FittedMeaning | backend/app/chat/proposal.py:92-108 | the longest run of whole last messages that fits the limit when joined, or the start of the last message alone; never more than the limit |
| RawText.RawTextMeaning | backend/app/chat/proposal.py:92-144 | the text of all user messages from `from` on, ending with the last, or the start of that one when it alone is too long; it is the last one for a push and when nothing was said since the discussion's start; else a message said since is left out only because the text from it on would exceed the limit |
| ChatRuns.ProposalWritten | backend/app/chat/proposal.py:147-180 | over every run, a proposal written by a call or on request has the model's parts, its place, and just that raw text from right after the latest saved proposal; it is held, and only the one held before is changed, to be replaced by it |
| ChatRuns.PushIsOfMessage | backend/app/chat/turn.py:286-292 | a turn writes its proposal as a push exactly when the message it answers is a /push command |
| ChatRuns.ProposalIsTold | backend/app/chat/turn.py:294-301 | the browser is sent the proposal with its place and parts, and the one it replaces, if one was held |
| Discussions.DiscussionStartMeaning | backend/app/chat/proposal.py:111-116 | the discussion starts right after the last proposal with a saved part, which is after all of them |
| Discussions.OfferedAfterAll | backend/app/chat/proposal.py:235-243 | when a proposal may be offered, none stands after the last message |
| Lifecycle.WrittenSound | backend/app/chat/proposal.py:147-180 | a new proposal is held, and replaces only the held one with an unsaved part |
| Lifecycle.ConfirmedSound | backend/app/routers/conversations.py:410-455 | a confirm keeps parts, thoughts and the held proposal in order |
| Lifecycle.AnsweredMeaning | backend/app/routers/conversations.py:417-455 | a confirm changes anything exactly when it answers a new thought |
| Lifecycle.AnsweredExactly | backend/app/routers/conversations.py:410-430 | when each answer is given: not found, not one part or all, partly saved, refused, a thought saved before, or a new one |
| Lifecycle.RepeatedConfirm | backend/app/routers/conversations.py:417-419 | a later confirm of the same parts answers the same thought and stores nothing |
| Lifecycle.ThoughtsOfProposal | backend/app/routers/conversations.py:431-449 | the thoughts saved from a proposal are exactly the distinct ones that its parts name |
| Lifecycle.HeldIsLatestUnsaved | backend/app/chat/proposal.py:3-7 | the held proposal is the latest with an unsaved part exactly when the last written has one or none has |
| Lifecycle.SavedLastHidesEarlier | backend/app/models/conversation.py:29-31 | two proposals after which an unsaved one is not held |
| ChatRuns.UnsavedLeftBehind | backend/app/chat/proposal.py:3-7 | a run of a conversation, from its first message, that ends so |
| Rounds.RoundState.Read | backend/app/chat/turn.py:66-97 | the nested loops leave the text, calls and finish reason that the stream gives, and send its events |
| Rounds.CollectedMeaning | backend/app/chat/turn.py:86-95 | in any mixture of pieces each index has its argument pieces joined in order, its first name and its last id |
| Rounds.OneStartEach | backend/app/chat/turn.py:91-93 | one start per index that gets a name, with its first name |
| Rounds.ForwardedText | backend/app/chat/turn.py:83-85 | the deltas sent spell the whole answer |
| Rounds.ForwardedStarts | backend/app/chat/turn.py:91-93 | the starts sent are those of the pieces that first name their call, in order |
| Rounds.RoundState.ToolCalls | backend/app/chat/turn.py:54-63 | the calls by ascending index, each with its id or a new one |
| ChatInvariants.RunKeeps | backend/app/chat/turn.py:157-321 | every state of every run keeps the invariant of transcript, proposals and turn |
| ChatRuns.NoOrphanedResult | backend/app/chat/compaction.py:46-57 | no tool result reaches a model without its call, from the rows or the context in memory, in any run |
| ChatRuns.ContextMatchesRows | backend/app/chat/turn.py:193-200 | when a round opens and while its calls run, the context in memory says what the stored rows say |
| Contexts.ModelIsTold | backend/app/chat/prompt.py:261-287 | in every state of every run, what a call would be given, and what a turn opens with, is: the instructions; the stripped text of the summary accepted last, which there is exactly when anything is compacted; each row that is not compacted, as what the model gets of it, in order; and last a note of the unsaved parts of the proposal held, if any |
| Contexts.TurnIsTold | backend/app/chat/prompt.py:216-223 | from its start to its end a turn's context starts with the instructions and that text, and its one other system message is the note on what was held at the start, until the turn makes a proposal |
| ChatRuns.SummaryCoversPrefix | backend/app/chat/compaction.py:143-160 | compacted messages are a prefix, and the one live summary was written from all of them |
| ChatRuns.StaleDraftRefused | backend/app/routers/conversations.py:307-321 | an acceptance changes nothing exactly when its text is blank or its messages are replaced already |
| ChatRuns.FreshDraftAccepted | backend/app/chat/compaction.py:134-163 | a draft accepted at once replaces just the messages through its position |
| ChatRuns.ProposalAtItsMessage | backend/app/chat/turn.py:286-293 | a tool message that shows a proposal stands at that proposal's position, and no other shows it |
| ChatRuns.ProposalsKept | backend/app/chat/proposal.py:173-179 | over any stretch of a run a part gets a thought at most once and keeps it, and the replacing proposal is set at most once |
| ChatRuns.ProposalLifecycle | backend/app/routers/conversations.py:410-453 | the held proposal is the last written while it has an unsaved part, one is replaced only by the next, parts share a thought only when all do |
| ChatRuns.ConfirmIsIdempotent | backend/app/routers/conversations.py:392-419 | at any later time a repeated confirm answers the first one's thought and changes nothing |
| ChatRuns.NewTextOnly | backend/app/chat/proposal.py:130-144 | if the user wrote anything since the last saved proposal, new raw text starts after the last message of every saved one, within the limit |
| Conversations.Conversation.NextPosition | backend/app/chat/conversations.py:109-115 | the position after the highest is the number of rows |
| Conversations.Conversation.Claim | backend/app/chat/conversations.py:123-145 | the claim is won exactly when no turn runs |
| Conversations.Conversation.StoreUserMessage | backend/app/routers/chat.py:73-86 | one user row with the text, unless the last row is that already |
| Conversations.Conversation.BuildModelContext | backend/app/chat/prompt.py:261-287 | the loop builds the specified context |
| Conversations.Conversation.DraftSummary | backend/app/routers/chat.py:292-301 | a draft is the step of the model, and nothing when a turn runs |
| Conversations.Conversation.AcceptSummary | backend/app/routers/conversations.py:307-325 | accepting is the step of the model, under the claim, and says whether it stored |
| Conversations.Conversation.WriteProposal | backend/app/chat/proposal.py:147-180 | the row written, held and replaced as specified |
| Conversations.Conversation.Confirm | backend/app/routers/conversations.py:410-455 | every answer and the new rows as specified |
| Conversations.OneOrAllCount | backend/app/routers/conversations.py:410-415 | counting the distinct indexes tells whether one part or all parts are named |
| Conversations.Conversation.OfferProposal | backend/app/chat/proposal.py:222-273 | the held proposal, a new one under the claim, or none, each with its exact condition |
| Turns.OpenChat | backend/app/routers/chat.py:151-227 | a message that no turn answers is refused; else claim, its row unless it repeats the last, and an open turn; a first call that fails releases the claim and keeps the message |
| Turns.Turn.DropNote | backend/app/chat/prompt.py:216-223 | the note is removed in place as specified |
| Turns.Turn.RunTool | backend/app/chat/turn.py:257-321 | each outcome of a call stores one row with its answer: what a search finds, a proposal shown if it is the turn's first and fits, or what is wrong; only a search's error stores none and stops the turn; all as steps of the model |
| Turns.Turn.RunRound | backend/app/chat/turn.py:157-202 | a round read whole that asks for calls stores one assistant row with just those calls, by ascending index, and one row for each call in order; any other ends the turn as its stream, errors and outcomes say |
| Turns.Turn.Events | backend/app/chat/turn.py:157-206 | the whole tool loop, from the state before and what the rounds meet: the rows that each round leaves, one after the other, the rows, noted error, last event and end of the turn; and all of it is steps of the model to an end |
| Scripts.EndsExactly | backend/app/chat/turn.py:157-206 | a turn ends at the limit exactly when all its rounds are read whole, ask for calls and no search of theirs fails; else in the first round that does not go on: whole, cut at the output limit or blank, broken off, or stopped, as that round says |
| Scripts.CallsAreAsked | backend/app/chat/turn.py:54-95 | the calls put together from a stream are those of all indexes that a piece has, ascending, each with its argument pieces joined, its first name, and its last id or a new one; there are some exactly when any choice has a piece |
| Scripts.CallsUnique | backend/app/chat/turn.py:54-95 | a stream asks for one list of calls |
| Turns.Turn.Close | backend/app/routers/chat.py:235-241 | closing the stream releases the claim |
| Turns.RunContinues | backend/app/chat/turn.py:157-206 | those steps extend any run, so what holds over runs holds of the turn |
| Screen.ShowEvents | frontend/components/chat/chat.tsx:457-517 | the loop folds the events as specified |
| Screen.WithSourcesMeaning | frontend/components/chat/sources-list.tsx:9-16 | no thought is listed twice, the list grows at its end only, and has every thought added |
| Screen.ListedOnce | frontend/components/chat/sources-list.tsx:9-16 | an answer lists each thought once however many searches it makes |
| Screen.FromStored | frontend/components/chat/chat.tsx:54-127 | the loops rebuild the specified chat |
| Pages.ReopenedMeaning | frontend/components/chat/chat.tsx:54-127 | any stored rows, rebuilt with proposals in the order that every run keeps them in: one item for each user message and summary, with its text and flag, and one for each stretch between them with an assistant row, in order; that one has its rows' texts joined, each thought its searches returned once, the message it answers, the first row's flag, the end and error of its last row that failed, the proposals its tool rows are the first to show, and those that none shows and that it is the last to begin before |
| Pages.OnScreenMeaning | frontend/components/chat/chat.tsx:457-517 | on screen are the text of all deltas, each thought found once, the proposals shown, and the end and the error told last |
| LiveAnswers.RunKeepsLive | backend/app/chat/turn.py:157-321 | in every state of every run the events sent and the rows stored give the same answer but for the text in flight |
| Reload.ReopenedMatches | frontend/components/chat/chat.tsx:54-127 | at any moment the reopened answer has the sources and proposals shown, and the text but for the round being read |
| Reload.ReloadRestatesError | frontend/components/chat/chat.tsx:457-540 | the reopened answer is the one left on screen in text, sources, proposals and end, and its error has the same code and the fixed message, if and only if the turn ended by itself and its ending was stored |
| Reload.LiveEqualsReload | frontend/components/chat/chat.tsx:113-120 | the two are exactly the same if and only if the answer is whole, or its stream broke with an error that has that message |
| Wire.BrowserReads | frontend/lib/sse.ts:253-274 | from the bytes of a turn's events, cut off and split anywhere, the browser reads the events that arrived whole, in order |
| Wire.BytesEqualReload | frontend/components/chat/chat.tsx:457-540 | the answer shown from the bytes of a whole stream, however split, against the reopened one: both conditions above |
| EventStream.Reader.Feed | frontend/lib/sse.ts:253-274 | one chunk yields the events it completes and buffers the rest |
| EventStream.Reader.ReadBlock | frontend/lib/sse.ts:232-246 | the line loop parses a block as specified |
| EventStream.BlockMeaning | frontend/lib/sse.ts:232-246 | a block's event is what its last `event` line says, or a message; its data that of all `data` lines, each on a line; without any it gives no event |
| EventStream.SplitDoesNotMatter | frontend/lib/sse.ts:253-274 | without CR CR LF any two splits of a stream give the same events |
| EventStream.SplitMattersAfterCrCrLf | frontend/lib/sse.ts:262-266 | a stream with CR CR LF that reads differently by its split |
| EventStream.NoEventWithoutBlankLine | frontend/lib/sse.ts:264-273 | a stream with fewer than two line ends gives no event however it is split, CR CR LF or not |
| EventStream.RoundTrip | backend/app/chat/sse.py:22-48 | any events, printed and split anyhow, parse to themselves in order |
| EventStream.TruncatedRoundTrip | frontend/lib/sse.ts:264-273 | a stream cut anywhere yields exactly the events that arrived whole |
| EventStream.DoneMeansWhole | backend/app/chat/sse.py:30-48 | `done` is seen exactly when the turn completed and the whole stream arrived |
| RateLimiter.Limiter.Take | frontend/lib/rate-limit.ts:21-33 | the answer and the new buckets as specified, with a sweep every thousandth time |
| RateLimiter.RateBound | frontend/lib/rate-limit.ts:21-33 | over any stretch of any run a key is allowed at most the capacity and what refills meanwhile, at the rate that fills a bucket in one window |
| RateLimiter.SweepingIsUnseen | frontend/lib/rate-limit.ts:35-40 | sweeping never changes an answer |
| RateLimiter.WaitIsEnough | frontend/lib/rate-limit.ts:28-32 | a refused key that waits as told is allowed next if and only if the capacity is at least one |
| RateLimiter.WaitIsNeeded | frontend/lib/rate-limit.ts:28-32 | a refused key is told no longer a wait than it needs, in whole seconds and at least one |
| Cookies.ReadChunked | frontend/lib/session.ts:116-124 | the whole value if it is not empty, else the numbered chunks joined, else none |
| Cookies.WriteChunked | frontend/lib/session.ts:130-152 | afterwards the jar holds just the new value's cookies of that name, none of them if they have no time to live, and every other cookie as before |
| Cookies.StoredFits | frontend/lib/session.ts:138-146 | no cookie of a value is longer than the limit, and one holds it when it is not |
| Cookies.WriteThenRead | frontend/lib/session.ts:116-152 | over any jar a written value is read back exactly when it is not empty and has time to live |
| Cookies.ClearChunked | frontend/lib/session.ts:155-158 | every cookie of that name goes and every other one stays |
| Cookies.ClearThenRead | frontend/lib/session.ts:155-158 | after clearing, nothing of the cookie is left to read |

## Left out

- HTTP, the database and provider client code, authentication, settings: plumbing; a call is its possible outcomes.
- Interleavings inside one request's transaction, or inside one batch, drop or swap of a rebuild, and a server that dies in a transaction (a proposal that was shown but not yet committed would be lost).
- The claim's timeout: a turn is taken to end within it.
- Usage records, the context meter and the compaction hint: they store nothing that a message or the index depends on.
- Ranking of search results, which the database does; excerpts.
- Field checks of thoughts, tag cleaning, categories, titles: the outcome of a check is a parameter.
- The words of prompts, tool answers and fixed error messages; a tool result is any text, and the fixed messages are short stand-ins, of which only that they differ matters.
- Thought deletion as proposals see it: a part keeps the id of a thought deleted later.
- Retrying an answer on screen: it stores the message again, so the reopened chat has it twice.
- The tool indications of an answer, which list calls by the order of their names while they run; text, sources, proposals, end, and the error's code and message are compared.
- The collapsed state of replaced cards on screen; the stored relation is modelled.
- JSON in events: a payload is opaque text without line ends, as the encoder gives; `Wire` takes coding as any pair of functions that undo each other on the events sent.
- UTF-8 decoding of chunks, which the platform's stream decoder does; chunks are characters.
- Case folding in commands and normalization is that of ASCII letters; whitespace is the set that Python's `str.isspace` has.
- Floating point: the limiter counts in real numbers, and its clock does not go back.
- Cookie lengths are in characters, URI coding is taken to undo itself, paths are one path; a lifetime is a whole number of seconds.
- Rebuild.Requests.Come: other requests come at the points where the rebuild waits, finitely often; termination of the fill rests on it.
