# PocketLLM chat core in Dafny

A model of the chat core of PocketLLM, a local-LLM chat application. The core has five parts:

- **The browser's streaming chat engine** (`frontend/contexts/ChatContext.tsx`).
  - `sendMessage` appends the user message and an empty assistant placeholder.
  - It splits the response text into `"\n\n"`-separated frames and interprets the `start`, `token`, `done` and `error` events.
  - It settles the turn in `catch`/`finally`.
  - Beside it are the small state transitions `stopGenerating`, `addMessage`, `clearMessages`, `clearAllChatState` and `loadSession`.
- **The server's prompt builder** (`backend/utils/prompt_builder.py`): the token estimate, the history trim, the `<|im_start|>role\n…<|im_end|>\n` block format and the prompt assembly.
- **The server's chat router** (`backend/routers/chat_router.py`).
  - Session resolution, with its 404/403 ownership checks.
  - The history window handed to the prompt builder.
  - The event sequence and framing of `generate_stream`.
  - The non-streaming `send_message`.
- **The output handling of the LLM service** (`backend/services/llm_service.py`).
  - The line clean-up `_clean_response` and the token filter `_stream_output`.
  - The stand-in generator used when no model is loaded.
  - The fallback branches of `LLMEngine.generate` and the cache-first `ModelInferenceService.infer`.
- **The pure parts of the history page** (`frontend/app/history/page.tsx`): restoring a stored session into the chat engine, the search filter, and the list and header titles.

## How each part is modelled

**The browser engine** is a class `ChatEngine` holding the transcript, the bound session id, the loading flag and the abort-controller reference.

- One call of `sendMessage` is an in-flight `Turn` object. Its awaits are separate methods:
  - `SendMessage`: the synchronous prefix;
  - `Respond`: the fetch resolves;
  - `Feed`: one `reader.read()` chunk;
  - `Finish`: the loop ends by end of stream, abort or failure.
- Because the awaits are separate, `stopGenerating`, `clearMessages` and the logout handler can run between them, as they can in the browser.
- The frame loop over the complete pieces of one chunk is a `while` loop, proved against the specification function `ApplyFrames`.
- The splitter keeps the ghost invariant that the emitted pieces and the retained buffer are exactly the split of everything received. That invariant makes the frames independent of how the text was chunked. `ApplyFramesAppend` and `FeedsCompose` carry this over to the transcript, and `ReadsAnyChunking` proves it for any number of reads: the frames of successive reads, applied one read after another, end where one pass over all of them ends, whatever clock each read sees, once the placeholder is stamped.

**The server side** is classes for its state:

- a session store holding a map from session ids to sessions;
- a response cache holding a map;
- the engine and the inference service.

**The collaborators are inputs.** That covers:

- what the model produced, or the error it raised;
- what the cache lookup returned;
- which of the session service's calls raised;
- the new uuid;
- the `datetime` text;
- the `json.dumps` rendering.

`generate_stream` is specified by `StreamPlan`, the events, saved message and cache write of one run. The method that writes the frames is proved against it.

**The wire.** The module `Wire` connects the two sides. The body the server writes is cut by the client into exactly the server's data lines. The placeholder then shows the text the server streamed, and on success that is the text it saved.

**Where the code does less than its comments and names suggest, the model follows the code:**

- `sendMessage` does not refuse a call while a generation is in flight (ChatContext.tsx:40-41 tests only for blank content). The one check against sending while loading is the input box's submit guard (InputBox.tsx:35).
- An `error` event is thrown inside the per-event `try` (ChatContext.tsx:162). It is caught at :164 as if it were a parse failure, so the read loop goes on rather than ending the turn.
- A non-success response throws `Failed to send message` (ChatContext.tsx:97-100), which reaches the generic error path. That path turns the empty placeholder into the apology text (:192-201) and does not remove it.
- The logout handler `clearAllChatState` (ChatContext.tsx:219-229) does not abort a stream in flight and does not clear the loading flag, unlike `clearMessages` (:213-217), which calls `stopGenerating`.
- The server's non-streaming `send_message` passes a `cache_key` argument (chat_router.py:55-61) that `infer` does not accept (llm_service.py:189). Every request that stores its user message therefore ends in an internal server error before anything is generated. The model returns HTTP 500 there.
- The comment at llm_service.py:100 says the filter blocks the model's internal reasoning markers. `_stream_output` filters the first chunk before `_clean_response` and not after, so a first chunk that the clean-up reduces to `<think>` is yielded (see "## Findings"). The model keeps the code's order.
- The header title on the history page also falls back to `"Conversation"` when the first user message is empty, because of the `||` (history/page.tsx:362).

## Model

| member | source | states |
|---|---|---|
| Text.StripSpec | backend/utils/prompt_builder.py:64 | the strip is the slice of the text between an all-whitespace prefix and an all-whitespace suffix, with no whitespace at either end; it is empty exactly when the text is all whitespace |
| Text.StripSlice | backend/utils/prompt_builder.py:64 | the strip is `s[i..j]` with only whitespace before `i` and after `j` |
| Text.StripIdempotent | backend/services/llm_service.py:127 | stripping twice is stripping once |
| Text.Split | frontend/contexts/ChatContext.tsx:124 | `split(sep)` always yields at least one piece |
| Text.JoinSplit | frontend/contexts/ChatContext.tsx:124 | joining the pieces of a split with the separator gives back the text |
| Text.SplitPiecesFree | frontend/contexts/ChatContext.tsx:124-125 | no piece of a split contains the separator |
| Text.SplitAppend | frontend/contexts/ChatContext.tsx:122-125 | splitting the received text plus a chunk is the pieces already complete followed by the split of the retained tail plus the chunk |
| Text.SplitJoin | backend/services/llm_service.py:147 | joining parts that hold no separator character and splitting again gives the parts back |
| Text.Words | backend/utils/prompt_builder.py:14 | `str.split()` yields non-empty words without whitespace |
| Text.WordsSingle | backend/utils/prompt_builder.py:14 | a non-empty text without whitespace is one word, itself |
| Text.WordsSpaceJoin | backend/utils/prompt_builder.py:14 | the words of two texts joined by a whitespace character are the words of the first followed by those of the second; with `WordsSingle` this fixes `str.split()` on every text |
| Text.SplitLastPiece | backend/services/llm_service.py:153-154 | past the last occurrence of a separator whose first character occurs only once in it, the rest of the text is the last piece of the split |
| Text.LastOccurrence | backend/services/llm_service.py:152-154 | a text with an occurrence of a separator has a last one, with no occurrence after it |
| Text.WordsEmptyIffAllSpace | backend/utils/prompt_builder.py:14 | a text has no words exactly when it is all whitespace |
| Text.WordTokens | backend/routers/chat_router.py:190-191 | one token per piece of `split(' ')` |
| Text.WordTokensRoundTrip | backend/routers/chat_router.py:190-191 | the first word, then a space and each later word, put together give back the text exactly |
| Text.Lower | frontend/app/history/page.tsx:156 | lower-casing keeps the length and maps each character |
| Text.Take | frontend/app/history/page.tsx:280 | `slice(0, n)` is the prefix of length min(n, length) |
| Text.ContainsMeansOccurs | frontend/app/history/page.tsx:158 | `includes` holds exactly when the needle occurs at some index |
| Text.NatToString | frontend/app/history/page.tsx:139 | a number renders as a non-empty string of decimal digits |
| Text.DecimalRoundTrip | frontend/app/history/page.tsx:139 | reading the rendered digits back gives the number |
| Text.NatToStringInjective | frontend/app/history/page.tsx:139 | distinct numbers render as distinct strings |
| PromptBuilder.CjkCount | backend/utils/prompt_builder.py:13 | the count of CJK ideographs is at most the length, and zero exactly when there is none |
| PromptBuilder.CjkCountOne | backend/utils/prompt_builder.py:13 | one character counts one when it lies in U+4E00 to U+9FFF and zero otherwise |
| PromptBuilder.CjkCountAppend | backend/utils/prompt_builder.py:13 | the count of a concatenation is the sum of the counts, so the count is the number of CJK positions |
| PromptBuilder.EstimateTokens | backend/utils/prompt_builder.py:9-15 | zero for a missing or empty text; otherwise twice the CJK count plus the word count, the two counts being fixed by `CjkCountAppend` and `WordsSpaceJoin` |
| PromptBuilder.EstimateWord | backend/utils/prompt_builder.py:13-15 | a single word is estimated at one plus two per CJK character in it |
| PromptBuilder.EstimateSpaceJoin | backend/utils/prompt_builder.py:9-15 | the estimate of two texts joined by a whitespace character is the sum of their estimates |
| PromptBuilder.EstimateZeroIff | backend/utils/prompt_builder.py:9-15 | the estimate is zero exactly for a missing text or one made only of whitespace |
| PromptBuilder.TrimConversation | backend/utils/prompt_builder.py:20-29 | the result is a suffix of the messages in order; its total fits the budget; when shorter than the input, one more message would overflow |
| PromptBuilder.LongerSuffixesOverflow | backend/utils/prompt_builder.py:25-26 | once a suffix overflows the budget every longer one does, so the trimmed suffix is the longest that fits |
| PromptBuilder.FmtChat | backend/utils/prompt_builder.py:48-50 | a block is the role and content wrapped in the start and end markers; its length is theirs plus the markers |
| PromptBuilder.FmtChatInjective | backend/utils/prompt_builder.py:48-50 | for roles without a line break a block determines its role and content |
| PromptBuilder.KeptAppend | backend/utils/prompt_builder.py:62-67 | the kept history entries of a concatenation are those of each part, so message order is kept |
| PromptBuilder.KeptSingle | backend/utils/prompt_builder.py:63-67 | one message is kept exactly when its stripped content is non-empty, with its role and that content |
| PromptBuilder.KeptAreClean | backend/utils/prompt_builder.py:64-66 | every kept entry is non-empty and equal to its own strip |
| PromptBuilder.HistoryBlockStep | backend/utils/prompt_builder.py:62-67 | one more history message adds its block exactly when its stripped content is non-empty |
| PromptBuilder.BuildPrompt | backend/utils/prompt_builder.py:57-75 | the prompt is the system block, the blocks of the non-blank history messages in order, the stripped user block and the opened assistant turn |
| ChatContext.NormalizeTimestamp | frontend/contexts/ChatContext.tsx:49 | a zone-marked timestamp is kept, any other gets `Z` appended, and the result is always zone-marked |
| ChatContext.NormalizeIdempotent | frontend/contexts/ChatContext.tsx:49 | normalising twice is normalising once |
| ChatContext.SafeParseServerTimestamp | frontend/contexts/ChatContext.tsx:45-52 | absent or empty gives null; otherwise the parse of the normalised text, and null for an invalid date |
| ChatContext.SetContent | frontend/contexts/ChatContext.tsx:143-149 | same length; the message with the id gets the content, every other message is unchanged |
| ChatContext.FirstTimestamp | frontend/contexts/ChatContext.tsx:156 | always some timestamp, and a timestamp already set wins |
| ChatContext.PatchTimestamp | frontend/contexts/ChatContext.tsx:152-159 | same length; only the message with the id gets the first-set timestamp |
| ChatContext.ApplyPayload | frontend/contexts/ChatContext.tsx:136-163 | error, unknown and unparsable payloads change nothing; only token payloads change the text and only start payloads the session |
| ChatContext.ApplyFrame | frontend/contexts/ChatContext.tsx:128-134 | a piece without the `data: ` prefix changes nothing; a data piece applies the payload after the six-character prefix |
| ChatContext.ApplyFrameEvolves | frontend/contexts/ChatContext.tsx:136-163 | one frame keeps the length, ids and roles, leaves other messages alone and never replaces a set timestamp |
| ChatContext.ApplyFrameText | frontend/contexts/ChatContext.tsx:141-142 | one frame adds exactly its token content, if any, to the accumulated text |
| ChatContext.ApplyFramesEvolves | frontend/contexts/ChatContext.tsx:127-168 | a run of frames keeps the transcript evolving in that sense |
| ChatContext.ApplyFramesText | frontend/contexts/ChatContext.tsx:141-149 | a run of frames grows the text by the token contents in arrival order |
| ChatContext.ApplyFramesAppend | frontend/contexts/ChatContext.tsx:127-168 | applying a run of frames in two parts is applying it in one |
| ChatContext.ApplyFrameNow | frontend/contexts/ChatContext.tsx:152-159 | once the turn's message carries a timestamp, the clock reading given to a frame changes nothing, and the message stays stamped |
| ChatContext.ApplyFramesNow | frontend/contexts/ChatContext.tsx:152-159 | the same for a run of frames |
| ChatContext.FeedsCompose | frontend/contexts/ChatContext.tsx:114-168 | two successive reads, each with its own clock reading, end where one pass over all their frames ends, once the turn's message is stamped (as `sendMessage` stamps the placeholder) |
| ChatContext.ReadStepPieces | frontend/contexts/ChatContext.tsx:122-125 | one read's complete pieces followed by those of its retained tail plus later text are the complete pieces of the whole, and the retained tail holds no separator |
| ChatContext.ReadsAnyChunking | frontend/contexts/ChatContext.tsx:114-168 | any number of reads, however the body is cut and whatever clock each read sees, end in the state of one pass over the complete pieces of the whole text, with its last piece retained; `ReadStep` is the state and buffer `Turn.Feed` ensures |
| ChatContext.ApplyFramesSession | frontend/contexts/ChatContext.tsx:136-140 | the session changes only when none was bound at call time, and then to the last non-empty start session id |
| ChatContext.MarkStopped | frontend/contexts/ChatContext.tsx:171-183 | on abort only the last message may change, getting the stop marker when it is the assistant's |
| ChatContext.ApologizeIfEmpty | frontend/contexts/ChatContext.tsx:184-201 | on other failures only an empty assistant message at the end changes, to the apology text |
| ChatContext.SplitterInvariant | frontend/contexts/ChatContext.tsx:110-125 | the buffer holds no `\n\n`; the pieces joined and followed by the buffer are all text received; the pieces are the complete frames of that text |
| ChatContext.FeedKeepsSplit | frontend/contexts/ChatContext.tsx:122-125 | feeding a chunk keeps the splitter invariant for the longer text |
| ChatContext.TurnIdsDiffer | frontend/contexts/ChatContext.tsx:55 | the user message id never equals an assistant id `msg-…` |
| ChatContext.StreamingFillsPlaceholder | frontend/contexts/ChatContext.tsx:141-149 | after any frames the earlier messages and the user message are untouched and the placeholder holds the concatenated token contents |
| ChatContext.ChatEngine.constructor | frontend/contexts/ChatContext.tsx:26-30 | empty transcript, no session, not loading, no controller |
| ChatContext.ChatEngine.StopGenerating | frontend/contexts/ChatContext.tsx:32-38 | with a controller: aborts it, drops it and clears loading; without one: nothing changes |
| ChatContext.ChatEngine.SendMessage | frontend/contexts/ChatContext.tsx:40-92 | blank content changes nothing; otherwise the transcript grows by the user message and an empty placeholder, each with its own id and timestamp reading, loading is raised, a fresh controller is held, and the request carries the session bound at call time |
| ChatContext.ChatEngine.AddMessage | frontend/contexts/ChatContext.tsx:209-211 | appends at the end, nothing else changes |
| ChatContext.ChatEngine.ClearMessages | frontend/contexts/ChatContext.tsx:213-217 | empties the transcript, forgets the session and stops generation |
| ChatContext.ChatEngine.ClearAllChatState | frontend/contexts/ChatContext.tsx:219-229 | empties the transcript and forgets the session, leaving loading and the controller as they were |
| ChatContext.ChatEngine.LoadSession | frontend/contexts/ChatContext.tsx:243-246 | replaces the session id and the whole transcript |
| ChatContext.Turn.constructor | frontend/contexts/ChatContext.tsx:110-112 | empty buffer and text, zero events, splitter invariant holds |
| ChatContext.Turn.Respond | frontend/contexts/ChatContext.tsx:97-108 | a success with a body starts reading; otherwise the placeholder may become the apology and the turn settles with loading cleared |
| ChatContext.Turn.FailAndSettle | frontend/contexts/ChatContext.tsx:184-206 | the generic catch then finally: apology for an empty placeholder, loading false, controller null |
| ChatContext.Turn.Feed | frontend/contexts/ChatContext.tsx:114-168 | one chunk: splitter invariant kept, the complete pieces applied in order, the tail retained, the data pieces counted |
| ChatContext.Turn.HandleLine | frontend/contexts/ChatContext.tsx:127-166 | one piece's effect is ApplyFrame, and it is counted exactly when it is a data piece |
| ChatContext.Turn.Finish | frontend/contexts/ChatContext.tsx:170-206 | the catch rewrites only the last message by how the loop ended; in every path loading is false and the controller null |
| LlmService.DedupSpec | backend/services/llm_service.py:142-145 | the deduplicated lines are exactly the input's lines, with no repeats |
| LlmService.DedupOrder | backend/services/llm_service.py:142-145 | kept lines appear in the order of their first occurrences |
| LlmService.CleanedText | backend/services/llm_service.py:119-120 | empty input comes back unchanged |
| LlmService.StrippedLinesMembers | backend/services/llm_service.py:127 | a line is kept by the strip pass exactly when it is the non-empty strip of some piece |
| LlmService.StrippedLinesClean | backend/services/llm_service.py:127 | every stripped line is non-empty, its own strip and without a line break; a line is kept exactly when it is the non-empty strip of some piece |
| LlmService.WithoutReasoningSpec | backend/services/llm_service.py:136-140 | a line is kept exactly when it is in the input and has no reasoning marker |
| LlmService.CleanedLinesMembers | backend/services/llm_service.py:122-145 | a line is in the output exactly when it is the non-empty, marker-free strip of a piece between line breaks |
| LlmService.CleanedLinesSpec | backend/services/llm_service.py:122-145 | the output lines are distinct, non-empty, their own strip, free of line breaks and of reasoning markers, and every non-empty, marker-free strip of a piece is among them |
| LlmService.CleanedTextLines | backend/services/llm_service.py:147 | the cleaned text is the kept lines joined by line breaks, and splitting it gives them back |
| LlmService.CleanResponse | backend/services/llm_service.py:117-147 | the three list passes and the join compute the cleaned text |
| LlmService.StripAll | backend/services/llm_service.py:127 | the loop computes the stripped non-empty lines |
| LlmService.DropReasoning | backend/services/llm_service.py:136-140 | the loop computes the lines without a reasoning marker |
| LlmService.DropRepeats | backend/services/llm_service.py:142-145 | the loop computes the first occurrence of each line |
| LlmService.StreamPiecesSpec | backend/services/llm_service.py:97-115 | no yielded piece is empty, and every piece after the cleaned first one passed the filter |
| LlmService.SurvivorsSurvive | backend/services/llm_service.py:101-102 | no surviving chunk is empty or a bare think marker |
| LlmService.FirstChunk | backend/services/llm_service.py:107-113 | the first surviving chunk is cleaned and yielded only when the clean-up is non-empty |
| LlmService.StreamChunk | backend/services/llm_service.py:98-115 | one pass keeps the relation between the chunks seen, the first-token flag and what was yielded |
| LlmService.FirstPieceMayBeMarker | backend/services/llm_service.py:101-111 | for a first chunk of two `<think>` lines, with patterns that leave it alone, the code yields exactly the bare marker `<think>` |
| LlmService.FirstPieceFiltered | backend/services/llm_service.py:101-111 | the cleaned first chunk, kept only when it also passes the marker filter, survives that filter |
| LlmService.StreamPiecesFilteredClean | backend/services/llm_service.py:97-115 | with the filter also after the clean-up no yielded piece is empty or a think marker, and the result differs from the code's only when the cleaned first chunk is a marker |
| LlmService.StreamOutput | backend/services/llm_service.py:92-115 | yields the cleaned first surviving chunk, if non-empty, then every later surviving chunk verbatim |
| LlmService.MockQuery | backend/services/llm_service.py:151-157 | the query has 1 to 50 characters and is the default without a user tag |
| LlmService.MockQueryAfterLastTag | backend/services/llm_service.py:151-157 | the query is the text after the last user tag, up to its first end-of-sequence tag, stripped and cut to 50 characters, or the default when that is blank |
| LlmService.MockQueryHasLastTag | backend/services/llm_service.py:152-154 | a prompt with a user tag has a last one, so the previous row covers every tagged prompt |
| LlmService.TagSplitsPrompt | backend/services/llm_service.py:152-154 | a prompt with the user tag splits into more than one part |
| LlmService.MockQueryFromLastSegment | backend/services/llm_service.py:153-157 | an echoed query holds neither a user tag nor an end-of-sequence tag |
| LlmService.MockGenerate | backend/services/llm_service.py:150-169 | the stand-in returns pieces exactly when streaming |
| LlmService.MockStreamMatchesWhole | backend/services/llm_service.py:159-169 | the streamed pieces put together are the whole response |
| LlmService.GeneratedShape | backend/services/llm_service.py:58-90 | without streaming the reply is a string; an error becomes the error prefix text; without a model the text is the stand-in's |
| LlmService.LLMEngine.constructor | backend/services/llm_service.py:16-19 | no model is loaded |
| LlmService.LLMEngine.Generate | backend/services/llm_service.py:50-90 | the stand-in without a model, the error text on an exception, the streamed pieces or the cleaned text otherwise |
| LlmService.InferenceService.constructor | backend/services/llm_service.py:185-187 | holds the given cache and engine |
| LlmService.InferenceService.Infer | backend/services/llm_service.py:189-200 | a non-empty cache hit is returned as cached and nothing changes; otherwise the engine's string is returned as fresh and stored under the key when caching is on |
| LlmService.InferenceService.StreamInfer | backend/services/llm_service.py:202-203 | the engine in streaming mode, without the cache |
| ChatRouter.ResolveAuthorizes | backend/routers/chat_router.py:126-140 | a request proceeds only with an existing session of the requester: the named one, or a new empty one |
| ChatRouter.ResolveRefuses | backend/routers/chat_router.py:131-139 | 404 exactly for an unknown id, 403 exactly for another user's session, and a refusal stores nothing |
| ChatRouter.Appended | backend/routers/chat_router.py:144-150 | one message appended to one session, every other session unchanged |
| ChatRouter.SessionStore.CreateSession | backend/routers/chat_router.py:129 | adds an empty session owned by the user under the new id |
| ChatRouter.SessionStore.AddMessage | backend/routers/chat_router.py:144-150 | appends the message to that session only |
| ChatRouter.AsHistory | backend/routers/chat_router.py:161-162 | the stored messages as the prompt builder reads them, one for one |
| ChatRouter.WindowAfterAdd | backend/routers/chat_router.py:160-163 | right after the user message is stored the window is the at most n messages before it, in order |
| ChatRouter.TokenEvents | backend/routers/chat_router.py:208 | one token event per content, in order |
| ChatRouter.Characters | backend/routers/chat_router.py:204 | iterating a string yields its characters one by one |
| ChatRouter.NonEmptySpec | backend/routers/chat_router.py:204-206 | the emitted live tokens are non-empty and put together give the source's whole text |
| ChatRouter.CharactersConcat | backend/routers/chat_router.py:204-206 | the characters put together give the string |
| ChatRouter.TokenSeqFlatten | backend/routers/chat_router.py:197-206 | iterating a reply yields its text, piece by piece |
| ChatRouter.PlanShape | backend/routers/chat_router.py:175-253 | every stream opens with `start` carrying the session, continues with tokens only and closes with one `done` or `error` |
| ChatRouter.PlanFailure | backend/routers/chat_router.py:222-226 | an `error` is emitted exactly when the cache lookup or the live source raised; then nothing is saved or cached and no `done` is emitted |
| ChatRouter.PlanSuccess | backend/routers/chat_router.py:228-245 | `done` reports the word count of exactly the streamed text, which is saved with that count unless saving raised |
| ChatRouter.PlanCachedRoundTrip | backend/routers/chat_router.py:186-193 | the cached path emits the first word, then a space and each later word, which put together are the cached response; no cache write |
| ChatRouter.PlanLive | backend/routers/chat_router.py:203-220 | the live path emits no empty token, emits the whole source text, and caches it exactly when it is non-empty and nothing raised |
| ChatRouter.Frames | backend/routers/chat_router.py:175 | every event becomes `data: `, its JSON and a blank line |
| ChatRouter.CachedTokenFrames | backend/routers/chat_router.py:190-193 | the cached loop writes one token frame per word token of the response |
| ChatRouter.LiveStep | backend/routers/chat_router.py:204-208 | one live token extends the text and the frames exactly when it is non-empty |
| ChatRouter.LiveTokenFrames | backend/routers/chat_router.py:203-209 | the live loop writes a frame per non-empty token and accumulates them as the full response |
| ChatRouter.RunPlanBranches | backend/routers/chat_router.py:180-226 | the plan of a run is the failure plan, the cached plan or the live plan, by what the lookup did |
| ChatRouter.ServeCached | backend/routers/chat_router.py:186-245 | the cached branch writes the cached plan's frames and saves its message |
| ChatRouter.ServeLive | backend/routers/chat_router.py:196-245 | the live branch writes the live plan's frames, saves its message and makes its cache write |
| ChatRouter.GenerateStream | backend/routers/chat_router.py:168-253 | a run writes the frames of its plan, saves the plan's message and makes the plan's cache write |
| ChatRouter.SendMessageStream | backend/routers/chat_router.py:115-166 | a refusal or a user-message failure answers the HTTP error; otherwise the user message is stored and the stream is the plan for the prompt over the last five earlier messages |
| ChatRouter.SendMessage | backend/routers/chat_router.py:20-61 | the same resolution and storing with a window of three, then the framework's generic internal server error at the call to infer; a failure to store the user message is uncaught and gives the same reply |
| Wire.DataLines | backend/routers/chat_router.py:175 | one `data: ` line per event, in order |
| Wire.BodyIsJoin | backend/routers/chat_router.py:175 | the body is the data lines joined by the blank-line separator, with one more after the last |
| Wire.ClientSplitsBody | frontend/contexts/ChatContext.tsx:122-130 | the client cuts the whole body into exactly the server's data lines and retains nothing |
| Wire.ClientReadsEvents | frontend/contexts/ChatContext.tsx:128-142 | over a faithful JSON wire the client reads the server's token contents and start sessions, in order |
| Wire.ClientReadsRun | frontend/contexts/ChatContext.tsx:114-168 | reading a run's body fills the placeholder with its token contents and binds its session if none was bound |
| Wire.ClientShowsWhatServerSaved | backend/routers/chat_router.py:175-245 | the client's placeholder shows exactly what the server streamed, which on success is what it saved |
| HistoryPage.Restored | frontend/app/history/page.tsx:138-143 | same length and order, each role and content kept, ids `restored-<session>-<index>` |
| HistoryPage.RestoredIdInjective | frontend/app/history/page.tsx:139 | two restored ids of one session are equal only for the same index |
| HistoryPage.RestoredIdsDistinct | frontend/app/history/page.tsx:139 | the restored ids are pairwise distinct |
| HistoryPage.RestoredIdsTagged | frontend/app/history/page.tsx:139 | every restored id starts with `restored-` |
| HistoryPage.RestoreSession | frontend/app/history/page.tsx:136-150 | the engine gets the session's id and the restored transcript, nothing else changes |
| HistoryPage.FirstUser | frontend/app/history/page.tsx:155 | the index of the first user message, or none exactly when there is no user message |
| HistoryPage.Filtered | frontend/app/history/page.tsx:152-159 | the filter keeps only sessions of the list that match |
| HistoryPage.FilteredAppend | frontend/app/history/page.tsx:152 | filtering keeps order: the filter of a concatenation is the filters of its parts |
| HistoryPage.FilteredMembers | frontend/app/history/page.tsx:152-159 | a session is kept exactly when it is in the list and matches |
| HistoryPage.EmptyQueryKeepsAll | frontend/app/history/page.tsx:153 | an empty query keeps the whole list |
| HistoryPage.MatchesSpec | frontend/app/history/page.tsx:155-158 | with a query, a session matches exactly when its first user message, lower-cased, contains the lower-cased query |
| HistoryPage.LowerIdempotent | frontend/app/history/page.tsx:156-158 | lower-casing twice is lower-casing once |
| HistoryPage.SearchIgnoresCase | frontend/app/history/page.tsx:158 | the search result does not depend on the query's case |
| HistoryPage.ListTitleSpec | frontend/app/history/page.tsx:278-281 | `New Conversation` without a user message; the message when at most 50 characters; its first 50 and `...` when longer |
| HistoryPage.ListTitleBounded | frontend/app/history/page.tsx:280 | the list title never runs past 53 characters |
| HistoryPage.HeaderTitleSpec | frontend/app/history/page.tsx:362 | `Conversation` without a user message or with an empty one; otherwise its first 100 characters |
| HistoryPage.TitlesAgreeOnShortMessages | frontend/app/history/page.tsx:362 | for a first user message of 1 to 50 characters the list title and the heading are that message |

## Findings

| source | as written | input that shows it | evidently intended | confidence | as-written member | corrected member |
|---|---|---|---|---|---|---|
| backend/services/llm_service.py:101-111 | the think-marker filter runs on the raw first chunk, and the chunk's clean-up is yielded unfiltered | the single chunk `"<think>\n<think>"`: it is not itself a marker, and cleaning it leaves the one line `<think>`, which is yielded | the cleaned first chunk passes the same filter as every later chunk, so no bare marker is ever yielded | not executed | LlmService.FirstPieceMayBeMarker | LlmService.StreamPiecesFilteredClean |

The engine's `StreamOutput` keeps the order the code has; `StreamPiecesFiltered` is the corrected yield sequence, and `StreamPiecesFilteredClean` proves it free of markers and equal to the code's whenever the cleaned first chunk is not one.

## Left out

- Network and I/O become inputs. This covers `fetch`, the response headers, `reader.read()`, `localStorage`, the history page's fetch and delete calls, and the file read in `load_system_prompt` (the system prompt is a parameter).
- `TextDecoder`: chunks are already-decoded text.
- `JSON.parse` and `json.dumps` are uninterpreted functions. The client's parse is a function to an event datatype with an "unparsable" case. The wire lemmas assume that parsing a dump gives back the event and that a dump holds no raw line break.
- `new Date(...)` is an uninterpreted function to an instant or an invalid date. The clock and `datetime.utcnow()` are parameters, and `uuid4` values are parameters. The new session id is required to be unused, as a fresh uuid is.
- The regular expressions of `_clean_response` (the `<think>` block removal and the reasoning-marker search) are uninterpreted. The two literal `re.sub` calls are modelled as removals of every occurrence.
- Text.Lower: ASCII only, because Unicode case mapping is not modelled.
- Text.IsSpace: whitespace is the six characters space, tab, line feed, vertical tab, form feed and carriage return, for Python's `strip` and `split()` and JavaScript's `trim` alike. Python also counts U+001C to U+001F and the Unicode spaces, and `trim` the Unicode spaces; the model counts none of them. So `EstimateTokens("a\u001Fb")` is 1 where `estimate_tokens` gives 2, and `Strip` keeps a trailing U+001F that Python's `strip` removes.
- Text.Take: counts characters of the Dafny string, not UTF-16 code units as JavaScript's `slice` does.
- The llama call, `load_model`, its settings and `get_model_info`: what the call produced or raised is an input, and whether a model is loaded is a field.
- `build_cache_key`: it is `json.dumps` formatting. The cache manager and the session service are maps, without their internals and the database.
- Exceptions raised by `cache_manager.set` are not modelled.
- The monitoring counter, the debug prints, `token_count`, and the `full_text` accumulator of `_stream_output`. None of them affects any result.
- `get_history`, `get_session_history` and `delete_session`: they are request/response plumbing around the session service.
- Concurrency and timing are not modelled:
  - React's state batching;
  - the delivery timing of the abort signal, which is a way `Finish` may end;
  - `asyncio.sleep` and `StreamingResponse`.
- The logout listener wiring: the listener is a plain call of `ClearAllChatState`.
- The navigation `router.push` calls of the history page.
- The presentational files. The input box's submit guard is the only check against sending while loading.
