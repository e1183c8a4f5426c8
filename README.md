# AlterEgo core logic in Dafny

AlterEgo is a progressive web app for chatting with AI personas. A FastAPI backend can also serve local language models. This project models that logic and proves what it promises, one module per source file. Storage, network, clocks, randomness and floating-point scoring are either parameters or abstract oracles.

| module | models |
|---|---|
| `BackendMain` | `backend/main.py`: chat-template dispatch by model name, cleaning a generated continuation, the `loaded_models` cache (class `ModelServer`), model listing, usage totals |
| `ContextBuilder` | `src/utils/contextBuilder.ts`: trivial-message test, clipping, token estimate, the backwards budgeted scan and the summary line |
| `Facts` | the `Facts:` line and the used-rights search, implemented identically by both association layers |
| `AssociativeMemory` | `src/memory/associativeMemory.ts`: the per-persona association cache (class `Cache`) |
| `MemoryDatabase` | `src/memory/memoryDatabase.ts`: token tests, keyword extraction, the `a = b` statement parser, the association table, pruning, message pages, persona states, settings (class `Database`) |
| `LongTermDb` | `src/memory/longTermDB.ts`: message keys, pagination, last N, time range, search, neighbour-expanding semantic selection, keywords, persona memory rows (class `LongTermStore`) |
| `EmotionService` | `src/services/emotionService.ts`: keyword occurrences, negation scopes, the bounded emotion history (class `EmotionHistoryTracker`), primary emotion, avatar alignment, dialogue acts |
| `ApiContext` | `src/context/ApiContext.tsx`: long-term memory text, history window, retrieved-memory block, short-term ids, chat-history transforms (class `ApiSession`) |
| `TokenTracking` | `src/utils/tokenTracker.ts`: per-query token accounting (class `TokenTracker`) |
| `OpenAiApi` | `src/utils/openaiApi.ts`: the usage log, its statistics and the request message list |
| `PerformanceMetrics` | `src/utils/performanceMetrics.ts`: the metric buffer, AI response statistics, timers, resource summary, scoring and report generation (class `PerformanceMonitor`) |
| `KeyValidation` | `src/utils/keyValidation.ts`: the pre-network key format checks, log masking, strength assessment and placeholder warnings |
| `ApiKeyManagement` | `src/components/Settings/ApiKeyManager.tsx`: key masking and the guarded save (class `ApiKeyManager`) |
| `SecurityConfiguration` | `src/utils/securityConfig.ts` and `src/utils/securityMigration.ts`: presets, validation, environment defaults, migration |
| `Legacy` | `src/types/legacy.ts`: the old and new message forms and their round trips |
| `Humanization` | `src/utils/humanization.ts`: temperature, token budget, backchannels, conversational context, tone, the phrase tracker (class `PhraseTracker`) |
| `RefreshDetection` | `public/debug-tool.js`: the refresh-loop detector (class `RefreshDetector`) |
| `Logging` | `src/utils/logger.ts`: level gating and the performance and system gates |
| `Text`, `Numbers`, `Ordering`, `Wrappers` | shared helpers: string predicates and scans, rounding and sums, a stable descending sort, `Option` and `Result` |

The numeric conventions are:

- Times are integer milliseconds.
- Lengths count characters (Dafny `char`s).
- Lower-casing covers ASCII letters only.
- A real-valued score is an abstract integer key wherever only its order matters.

## Model

| member | source | states |
|---|---|---|
| BackendMain.SelectTemplate | backend/main.py:132-204 | the branch `format_chat_prompt` takes; `TinyLlamaUnreachable` and `DialoGPTCaseSensitive` prove which branches a name can reach |
| BackendMain.Prompt | backend/main.py:128-204 | the prompt `format_chat_prompt` returns; `FormatChatPrompt` proves the loops compute it and `LlamaPrompt` and the DialoGPT lemmas give its layouts |
| BackendMain.Turns | backend/main.py:135-141 | each message contributes its own block, in order, one per message |
| BackendMain.TurnsAppend | backend/main.py:135-141 | the per-message blocks of a concatenation are the blocks of each part |
| BackendMain.FormatChatPrompt | backend/main.py:128-204 | the `+=` loops build exactly the prompt of the branch the model name selects |
| BackendMain.FormatTurns | backend/main.py:133-145 | the loop over the messages yields their blocks in order, then the generation cue |
| BackendMain.FormatDialoGPT | backend/main.py:162-190 | the first system message's content plus a space as context, then the last user/assistant content, or the context alone |
| BackendMain.BodyConcat | backend/main.py:135-141 | the prompt body of a concatenation is the concatenation of the bodies |
| BackendMain.BodyCons | backend/main.py:135-141 | each message adds its block in front of the rest |
| BackendMain.LlamaPrompt | backend/main.py:132-145 | a name whose lowercase contains "llama" gets the header/eot blocks followed by an empty assistant header |
| BackendMain.OtherRoleContributesNothing | backend/main.py:136-141 | a role other than system, user and assistant adds nothing in any layout |
| BackendMain.TinyLlamaUnreachable | backend/main.py:132-148 | the TinyLlama layout is never chosen: every name containing "tinyllama" contains "llama" |
| BackendMain.DialoGPTCaseSensitive | backend/main.py:162 | a name without capitals never selects the DialoGPT layout |
| BackendMain.ChatHistoryLast | backend/main.py:173-178 | the last history entry is the content of the last user or assistant message |
| BackendMain.ChatHistoryEmpty | backend/main.py:173-178 | without user or assistant messages the history is empty |
| BackendMain.DialoGPTPromptLastTurn | backend/main.py:181-186 | the DialoGPT prompt is the system context followed by the last user/assistant content |
| BackendMain.DialoGPTPromptNoTurns | backend/main.py:187-188 | without user or assistant messages the DialoGPT prompt is the system context |
| BackendMain.GenericPrompt | backend/main.py:192-204 | a name with no "llama" in any case and no "DialoGPT" gets the System/Human/Assistant lines followed by "Assistant:"; one user turn c gives "Human: c\n" then "Assistant:" |
| BackendMain.GenericBody | backend/main.py:194-202 | the generic layout writes nothing for no message and "Human: c\n" for one user message with content c |
| BackendMain.Continuation | backend/main.py:244 | the text after the prompt: a suffix of the output, empty when the output is shorter than the prompt |
| BackendMain.MarkersNonEmpty | backend/main.py:249-262 | every end and user marker is non-empty, so each split is well defined |
| BackendMain.GenerateResponse | backend/main.py:206-273 | a missing model is a 500 error; otherwise the result is the cleaned continuation |
| BackendMain.CutIsInfix | backend/main.py:249-262 | a marker cut keeps a part of its input |
| BackendMain.CleanTextIsPart | backend/main.py:244-270 | the response is the fallback text or a part of the continuation |
| BackendMain.Cleaned | backend/main.py:244-270 | the response `generate_response` returns; `CleanedIsPartOfContinuation`, `CleanedNonEmptyAndTrimmed` and `CleanedDropsEndOfTurn` prove what it keeps and drops |
| BackendMain.CleanedIsPartOfContinuation | backend/main.py:244-270 | the returned response is the fallback text or a part of what followed the prompt |
| BackendMain.CleanTextNonEmptyAndTrimmed | backend/main.py:265-270 | the cleaned text is non-empty and, unless the fallback, has no surrounding whitespace |
| BackendMain.CleanedNonEmptyAndTrimmed | backend/main.py:265-270 | the returned response is never empty, and only the fallback may carry surrounding whitespace |
| BackendMain.NotContainsAfterCut | backend/main.py:249-262 | a cut never introduces a marker that was absent |
| BackendMain.NotContainsAfterTrim | backend/main.py:265 | stripping never introduces a marker that was absent |
| BackendMain.CleanTextDropsFirstEndMarker | backend/main.py:249-250 | when the first end marker occurs, it does not survive the cleaning |
| BackendMain.CleanedDropsEndOfTurn | backend/main.py:249-250 | an end-of-turn marker in the continuation never reaches the response (fallback aside) |
| BackendMain.UsageOf | backend/main.py:340-344 | total tokens are prompt plus completion words, each bounded by its text's length |
| BackendMain.ModelServer.LoadModel | backend/main.py:92-126 | a cached entry is returned unchanged; a successful load inserts exactly that key; a failed one is a 500 and changes nothing |
| BackendMain.ModelServer.UnloadModel | backend/main.py:363-378 | 400 unless loaded; otherwise exactly that key is removed |
| BackendMain.ModelServer.ListModels | backend/main.py:290-303 | one entry per registry model, in order, flagged loaded iff cached |
| BackendMain.ModelServer.LoadSpecificModel | backend/main.py:349-361 | 400 for an unknown model; otherwise already loaded iff cached, else loading |
| BackendMain.ModelServer.CreateChatCompletion | backend/main.py:305-347 | unknown models are a 400 before any load; a completion carries the cleaned response of the formatted prompt and its usage; only the requested model can be added to the cache |
| ContextBuilder.BlankIsTrivial | src/utils/contextBuilder.ts:18-20 | whitespace-only text is trivial |
| ContextBuilder.TrivialIgnoresCase | src/utils/contextBuilder.ts:19-24 | triviality does not depend on letter case |
| ContextBuilder.Clip | src/utils/contextBuilder.ts:28-31 | text within the limit is kept; longer text becomes exactly `max` characters, its prefix plus an ellipsis |
| ContextBuilder.ApproxTokens | src/utils/contextBuilder.ts:33 | the ceiling of a quarter of the length |
| ContextBuilder.MemoryPairs | src/utils/contextBuilder.ts:39 | the pair target is at least 1 and at least the requested number |
| ContextBuilder.EligibleIsSubsequence | src/utils/contextBuilder.ts:48-60 | the kept messages are the shortened non-system, non-trivial messages, in conversation order |
| ContextBuilder.SelectShape | src/utils/contextBuilder.ts:50-55 | no system message is kept and no kept content exceeds 600 characters |
| ContextBuilder.EligibleShape | src/utils/contextBuilder.ts:50-55 | the same for the messages the scan may keep |
| ContextBuilder.SelectOfSuffix | src/utils/contextBuilder.ts:48-67 | what a shorter scan keeps is a suffix of what the full scan may keep |
| ContextBuilder.LastWhere | src/utils/contextBuilder.ts:72-74 | the position of the last message with the property, or -1 when there is none |
| ContextBuilder.ScanBackwards | src/utils/contextBuilder.ts:44-67 | the loop takes, newest first, everything eligible after its stopping point; if it stopped early, one of the two `break` conditions held at the stop (over budget with `minPairs` reached, or `memoryPairs` reached with under a quarter of the budget left) and neither held at any later message; an over-budget cost is accepted only before `minPairs` are reached |
| ContextBuilder.StopAtBreak | src/utils/contextBuilder.ts:58-66 | a stop at one of the two breaks, with no break later, satisfies the stopping condition, and then enough user messages were kept |
| ContextBuilder.NoBreakFromAll | src/utils/contextBuilder.ts:58-66 | no break from a position on means neither break holds at any later position |
| ContextBuilder.BudgetBreakAt | src/utils/contextBuilder.ts:57-58 | the over-budget break tested with the loop's running totals is the break stated on the kept suffix |
| ContextBuilder.PairsBreakAt | src/utils/contextBuilder.ts:65-66 | the same for the pairs break |
| ContextBuilder.BuildShortTermContext | src/utils/contextBuilder.ts:35-80 | the pruned list is what the scan keeps after a stopping point where a `break` condition held and after which none held, in order, complete unless enough pairs were taken; the summary is present iff a meaningful user message exists and clips its collapsed text to 140 characters |
| ContextBuilder.SummaryPresence | src/utils/contextBuilder.ts:72-77 | the summary is present iff some user message is not trivial |
| Facts.Fragment | src/memory/associativeMemory.ts:352 | the fragment `left=right` is one character longer than its two tokens |
| Facts.ChosenSpec | src/memory/associativeMemory.ts:348-359 | the scan keeps valid associations of the list, no right token twice, and stays within the budget; it adds exactly the first usable association per new right among the entries before its stop, in list order, and it stops only at a usable association with a new right whose fragment overflows the budget |
| Facts.FirstNewMembers | src/memory/associativeMemory.ts:348-350 | the reference list (every usable association whose right is not yet seen, first one per right) holds usable associations of the list, with unseen and distinct rights |
| Facts.FirstNewComplete | src/memory/associativeMemory.ts:348-350 | every usable association of the list with an unseen right has its right in the reference list |
| Facts.FirstNewOrdered | src/memory/associativeMemory.ts:348 | the reference list keeps the list order |
| Facts.FirstNewIsFirst | src/memory/associativeMemory.ts:348-350 | each association of the reference list is the first usable one of the list carrying its right |
| Facts.ChosenStops | src/memory/associativeMemory.ts:348-359 | the scan adds the reference list of the entries before its stop, and the entry at the stop is a usable association with a new right that does not fit |
| Facts.ChosenEmpty | src/memory/associativeMemory.ts:352-361 | from an empty line the scan chooses nothing exactly when the reference list is empty or its first association does not fit |
| Facts.ChosenSafe | src/memory/associativeMemory.ts:348-359 | the scan keeps distinct rights, valid tokens, members of the list and a line within the budget |
| Facts.FactsLineSpec | src/memory/associativeMemory.ts:337-362 | no line for an empty list; a line starts with `Facts: `, fits the budget and lists, in list order, the first usable association per right among the entries before the stop, where the stop is the first usable association with a new right that overflows; the result is `None` exactly when there is no usable association or the first one does not fit |
| Facts.BuildFactsLine | src/memory/memoryDatabase.ts:579-604 | the loop with its `continue`s and `break` computes exactly the chosen facts line (the same scan serves both files), so `FactsLineSpec` applies to it |
| Facts.TokenRuns | src/memory/associativeMemory.ts:385-389 | the tokens are the non-empty maximal runs of `[a-z0-9_-]` |
| Facts.Best | src/memory/associativeMemory.ts:395-397 | the association reported for a token is in the list and carries exactly that right |
| Facts.BestIsFirst | src/memory/associativeMemory.ts:396 | it is the first association in salience order carrying that right |
| Facts.ScanTokens | src/memory/associativeMemory.ts:391-405 | each reported pair comes from some token's lookup, no `left|right` key twice, and every successful lookup's key is reported |
| Facts.RightsUsedInText | src/memory/memoryDatabase.ts:542-574 | empty for no associations or no text; otherwise what the tokens report, once per key, and every token's report is covered |
| AssociativeMemory.IsAssociationToken | src/memory/associativeMemory.ts:158-164 | `isAssociationToken`; `AssociationTokenRules` proves what it rejects and accepts |
| AssociativeMemory.AssociationTokenRules | src/memory/associativeMemory.ts:158-164 | under three characters, a stop word, or no letter `a`-`z` is rejected; a long non-stop word starting with a letter is accepted |
| AssociativeMemory.Bump | src/memory/associativeMemory.ts:217 | the new strength never exceeds 1e6, stays positive, and is the plain sum below the cap |
| AssociativeMemory.AddOne | src/memory/associativeMemory.ts:211-231 | one input pair adds at most one entry |
| AssociativeMemory.AddAll | src/memory/associativeMemory.ts:210-232 | the loop adds at most one entry per input pair |
| AssociativeMemory.TouchOne | src/memory/associativeMemory.ts:285-293 | touching keeps the length |
| AssociativeMemory.TouchAll | src/memory/associativeMemory.ts:284-294 | touching all pairs keeps the length |
| AssociativeMemory.AddOnePairs | src/memory/associativeMemory.ts:213-231 | one step adds the pair's key exactly when both sides are tokens |
| AssociativeMemory.AddAllPairs | src/memory/associativeMemory.ts:210-232 | afterwards the keys are the old keys plus the trimmed, lowercased keys of the accepted pairs |
| AssociativeMemory.PreparedSpec | src/memory/associativeMemory.ts:211-213 | a pair is accepted iff both trimmed, lowercased sides are tokens, and its key is that normal form |
| AssociativeMemory.AddAllNoDuplicates | src/memory/associativeMemory.ts:215-231 | no `(left, right)` key ever gets a second entry |
| AssociativeMemory.AddAllStrengths | src/memory/associativeMemory.ts:217-225 | strengths stay in (0, 1e6] |
| AssociativeMemory.AddOneReinforces | src/memory/associativeMemory.ts:216-220 | a present key is reinforced in place: strength +1 capped, exposures +1, both timestamps now, others untouched |
| AssociativeMemory.AddOneAppends | src/memory/associativeMemory.ts:221-230 | an absent key is appended with strength 1 and one exposure |
| AssociativeMemory.TouchAllKeys | src/memory/associativeMemory.ts:284-294 | touching never adds, removes or re-keys an entry |
| AssociativeMemory.TouchAllStrengths | src/memory/associativeMemory.ts:290 | strengths stay in (0, 1e6] |
| AssociativeMemory.TouchAllNoDuplicates | src/memory/associativeMemory.ts:284-294 | touching re-keys nothing, so a duplicate-free list stays duplicate-free |
| AssociativeMemory.TouchOneBumps | src/memory/associativeMemory.ts:287-293 | a touched entry gains 0.5 strength (capped) and one exposure; no other entry changes |
| AssociativeMemory.PairsSeq | src/memory/associativeMemory.ts:341 | the `(left, right)` projection, entry for entry |
| AssociativeMemory.LeftFor | src/memory/associativeMemory.ts:323-329 | a right maps to the left of its first association in ranked order, and is unmapped iff no association carries it |
| AssociativeMemory.Translate | src/memory/associativeMemory.ts:331 | one token of `translateRightSequence`; `TranslateUnknown` and `TranslateKnown` prove both outcomes |
| AssociativeMemory.TranslateUnknown | src/memory/associativeMemory.ts:331 | a token whose lowercase form is no right comes back unchanged |
| AssociativeMemory.TranslateKnown | src/memory/associativeMemory.ts:331 | a known right becomes the non-empty left of its first association |
| AssociativeMemory.FirstLefts | src/memory/associativeMemory.ts:323-329 | the loop's map holds exactly the rights present, each with its first left |
| AssociativeMemory.AddLoop | src/memory/associativeMemory.ts:210-232 | the loop over the cached list computes `AddAll` of the prepared pairs |
| AssociativeMemory.TouchLoop | src/memory/associativeMemory.ts:284-294 | the loop over the cached list computes `TouchAll` of the normalised pairs |
| AssociativeMemory.Cache.Sync | src/memory/associativeMemory.ts:106-123 | a successful refresh replaces the persona's entry with the stored list, clean; the stored list is duplicate-free (the store's compound index), so `Valid`, no duplicate key in any entry, is kept |
| AssociativeMemory.Cache.AddAssociations | src/memory/associativeMemory.ts:199-242 | no pairs or no cached entry changes nothing; otherwise only that persona's list is updated and marked dirty, and `Valid` is kept |
| AssociativeMemory.Cache.TouchAssociations | src/memory/associativeMemory.ts:273-304 | the same for touching, and `Valid` is kept |
| AssociativeMemory.Cache.Ranked | src/memory/associativeMemory.ts:248-260 | the cached list, sorted by descending salience, as a permutation |
| AssociativeMemory.Cache.TranslateRightSequence | src/memory/associativeMemory.ts:318-332 | one output per input token, each the translation against the ranked list |
| AssociativeMemory.Cache.BuildFactsLine | src/memory/associativeMemory.ts:337-362 | the facts line of the ranked list with `isAssociationToken` as the token test, so `FactsLineSpec` applies to it: the first usable association per right before the first overflow, in salience order, and a line whenever the first one fits |
| AssociativeMemory.Cache.GetRightsUsedInText | src/memory/associativeMemory.ts:377-408 | the text lookup over the ranked list: empty for no cache or no text, each pair from a token, each key once, every token's report covered |
| AssociativeMemory.Cache.ClearPersona | src/memory/associativeMemory.ts:413-414 | exactly that persona's entry is removed |
| AssociativeMemory.Cache.ClearAll | src/memory/associativeMemory.ts:424-425 | the cache is emptied |
| AssociativeMemory.ClearPersonaOthers | src/memory/associativeMemory.ts:413-414 | the cleared persona is gone and every other entry is unchanged |
| MemoryDatabase.IsValidToken | src/memory/memoryDatabase.ts:152-162 | `isValidToken`; `ValidTokenRejects` and `ValidTokenIgnoresCase` prove which tokens it rejects and that case does not matter |
| MemoryDatabase.ValidTokenIgnoresCase | src/memory/memoryDatabase.ts:152-162 | a token and its lower-cased form are accepted or rejected together, since the stop-word test lower-cases and the letter test is case-insensitive |
| MemoryDatabase.ValidTokenRejects | src/memory/memoryDatabase.ts:152-162 | tokens under three characters, stop words in any case, and tokens without an ASCII letter are rejected |
| MemoryDatabase.ExtractKeywords | src/memory/memoryDatabase.ts:359-366 | `extractKeywords`; `ExtractKeywordsSpec` proves it yields exactly the distinct qualifying words in first-occurrence order |
| MemoryDatabase.KeywordsSpec | src/memory/memoryDatabase.ts:359-366 | for any word filter, the keywords are exactly the distinct accepted words of the text, in order of first occurrence, each lower-case and free of whitespace and of the deleted punctuation |
| MemoryDatabase.ExtractKeywordsSpec | src/memory/memoryDatabase.ts:359-366 | exactly the distinct words of the lower-cased, punctuation-free text longer than two characters and not stop words, in order of first occurrence; each lower-case and free of whitespace and of the deleted punctuation |
| MemoryDatabase.MatchRight | src/memory/memoryDatabase.ts:620-622 | the third group, when found, is three or more characters of `[a-z0-9_-]` |
| MemoryDatabase.MatchOperator | src/memory/memoryDatabase.ts:620-622 | a match after the first group starts with one of the operator alternatives and yields a valid third group |
| MemoryDatabase.MatchLeft | src/memory/memoryDatabase.ts:620-622 | a match has both groups of three or more token characters and an operator occurrence |
| MemoryDatabase.MatchAt | src/memory/memoryDatabase.ts:620-622 | a match anchored at a word boundary has both groups well formed and an operator occurrence |
| MemoryDatabase.Search | src/memory/memoryDatabase.ts:625 | the leftmost match, when there is one, has both groups well formed and an operator occurrence |
| MemoryDatabase.Pieces | src/memory/memoryDatabase.ts:619 | splitting on `;` and `,` gives at least one piece, and no piece contains a separator or a character not in the text |
| MemoryDatabase.ParseChunk | src/memory/memoryDatabase.ts:625-632 | a chunk contributes a pair only when the expression matches and both captured sides pass the token test |
| MemoryDatabase.ParseChunks | src/memory/memoryDatabase.ts:624-633 | at most one pair per chunk, each one the contribution of some chunk |
| MemoryDatabase.ParseChunksLoop | src/memory/memoryDatabase.ts:624-633 | the loop over the chunks collects exactly the chunk contributions, in order |
| MemoryDatabase.ParseAssociationsFromText | src/memory/memoryDatabase.ts:609-636 | the parsed pairs are those of the lower-cased, space-collapsed chunks under the operators the training test selects |
| MemoryDatabase.ParseChunksShape | src/memory/memoryDatabase.ts:625-632 | every pair is a match whose two sides are well formed and accepted by the token test |
| MemoryDatabase.ParseAssociations | src/memory/memoryDatabase.ts:609-636 | `parseAssociationsFromText`; `ParseAssociationsSpec` proves at most one well-formed, token-checked pair per chunk |
| MemoryDatabase.ParseAssociationsSpec | src/memory/memoryDatabase.ts:613-633 | empty text gives nothing; at most one pair per chunk; both sides are three or more characters of `[a-z0-9_-]` and pass `isValidToken` |
| MemoryDatabase.PlainChunkNeedsEquals | src/memory/memoryDatabase.ts:620-622 | without the training keywords only `=` separates: a chunk that matches contains `=` |
| MemoryDatabase.PlainTextNeedsEquals | src/memory/memoryDatabase.ts:613-622 | text with no `=` and no training keyword yields no pairs |
| MemoryDatabase.StoreAddOne | src/memory/memoryDatabase.ts:433-466 | one step of the loop adds at most one row and never lowers the next id; `StoreAddOneReinforces` and `StoreAddOneInserts` give the row values |
| MemoryDatabase.StoreAddOneReinforces | src/memory/memoryDatabase.ts:445-453 | an existing row gets strength `min(1e6, s + 1)` with a missing strength `s` counting as 1, one more exposure, both use times `now` and no cached salience; no other row changes and no id is used |
| MemoryDatabase.StoreAddOneInserts | src/memory/memoryDatabase.ts:454-466 | a key with no row gets one appended with the next id, strength 1, one exposure and every time `now`, and the other rows are untouched |
| MemoryDatabase.StoreAddAll | src/memory/memoryDatabase.ts:433-467 | the loop never removes a row and never lowers the next id |
| MemoryDatabase.StoreAddAllSpec | src/memory/memoryDatabase.ts:433-467 | reinforce-or-insert keeps one row per persona, left and right (the compound index), keeps ids ascending below the next id, adds exactly the keys of the accepted pairs, and leaves other personas' rows untouched |
| MemoryDatabase.StoreAddAllTallies | src/memory/memoryDatabase.ts:433-467 | after the loop, a row named `n` times by the accepted pairs has `n` more exposures and strength `min(1e6, s + n)` (a missing `s` counting as 1), use times `now` and no cached salience when `n > 0`, and is unchanged when `n = 0`; each new row has a fresh id, strength and exposures equal to how often it was named, and every time `now` |
| MemoryDatabase.StoreAddLoop | src/memory/memoryDatabase.ts:433-467 | the loop computes the reinforce-or-insert fold over the prepared pairs |
| MemoryDatabase.StoreTouchOne | src/memory/memoryDatabase.ts:515-537 | touching one key keeps the number of rows |
| MemoryDatabase.StoreTouchAll | src/memory/memoryDatabase.ts:515-537 | touching keeps the number of rows |
| MemoryDatabase.StoreTouchAllSpec | src/memory/memoryDatabase.ts:510-541 | touching changes no id or key, leaves rows of other personas and rows not named unchanged, and keeps strengths within the cap |
| MemoryDatabase.StoreTouchAllTallies | src/memory/memoryDatabase.ts:515-537 | with one row per key, each row is touched once per key naming it for the persona: it gains that many exposures, and when touched at all a non-negative stored strength (0 read as 1) rises by half a step per touch, capped at `1e6`, both use times become `now` and its salience cache is cleared; id, key and creation time stay, and untouched rows are unchanged |
| MemoryDatabase.TouchedStep | src/memory/memoryDatabase.ts:521-534 | one more touch of a row touched n times yields a row touched n + 1 times (the cap absorbs repeated raises) |
| MemoryDatabase.StoreTouchLoop | src/memory/memoryDatabase.ts:515-537 | the loop computes the touch fold over the normalised keys |
| MemoryDatabase.KeysWhereFrom | src/memory/memoryDatabase.ts:668-671 | every id marked for deletion belongs to a weak candidate |
| MemoryDatabase.KeysWhereHas | src/memory/memoryDatabase.ts:668-671 | every weak candidate's id is marked for deletion |
| MemoryDatabase.PruneByRemovesWeak | src/memory/memoryDatabase.ts:665-675 | only weak selected rows are deleted; above the limit every deleted row lies among the count-minus-limit lowest of the sorted selection, and every weak row there is deleted |
| MemoryDatabase.PruneWeakGo | src/memory/memoryDatabase.ts:665-674 | every weak row among the count-minus-limit lowest is deleted |
| MemoryDatabase.PruneDeletedLowest | src/memory/memoryDatabase.ts:665-674 | a deleted row is a weak selected row among the count-minus-limit lowest, and the selection is above the limit |
| MemoryDatabase.PruneCandidates | src/memory/memoryDatabase.ts:665-671 | a row whose id is that of a weak candidate is a selected, weak row among the count-minus-limit lowest |
| MemoryDatabase.PruneByCount | src/memory/memoryDatabase.ts:665-675 | at most count minus limit rows are deleted |
| MemoryDatabase.Prune | src/memory/memoryDatabase.ts:649-681 | `pruneAssociations` on the rows; `PruneSpec` proves that exactly the weak rows among the persona's lowest-salience excess go, and only above 200 rows |
| MemoryDatabase.PruneSpec | src/memory/memoryDatabase.ts:649-681 | at 200 rows or fewer nothing changes; otherwise only weak rows of the persona are deleted, at most count minus 200, every other row is kept, every deleted row is among the count-minus-200 lowest by salience, every weak row among them is deleted, and more than 200 may remain |
| MemoryDatabase.PruneBySpec | src/memory/memoryDatabase.ts:665-675 | the same for any selection, order and limit |
| MemoryDatabase.PruneKeepsIndex | src/memory/memoryDatabase.ts:649-676 | pruning only deletes, so one row per key and ascending ids below the next id survive it |
| MemoryDatabase.TouchKeepsIndex | src/memory/memoryDatabase.ts:510-541 | touching changes no key and no id, so one row per key and ascending ids survive it |
| MemoryDatabase.Window | src/memory/memoryDatabase.ts:232-242 | the newest-first window holds at most `limit` messages, all of the persona; `WindowNewest` gives its exact length and contents |
| MemoryDatabase.WindowNewest | src/memory/memoryDatabase.ts:232-242 | the window is empty when `offset` is past the persona's messages; otherwise it holds `limit` messages, or all that are left after `offset`, and its k-th message is the persona's (offset+k)-th newest |
| MemoryDatabase.NewestFirst | src/memory/memoryDatabase.ts:238-242 | `reverse().offset(a).limit(n)` on any list: the same length rule, and the k-th element is the (a+k)-th from the end |
| MemoryDatabase.QueryPage | src/memory/memoryDatabase.ts:229-272 | `total` counts the persona's messages; the items are the messages of the window that pass every filter, in window order; `hasMore` iff offset plus item count is below the total |
| Text.FilterKeepsAll | src/memory/memoryDatabase.ts:245-253 | a filter every message passes keeps the list as it is |
| MemoryDatabase.QueryPageUnfiltered | src/memory/memoryDatabase.ts:245-253 | without filters the page is exactly the newest-first window |
| MemoryDatabase.MarkAccessed | src/memory/memoryDatabase.ts:256-263 | every returned message with an id gets one more access and the new access time; every other message is unchanged |
| MemoryDatabase.Upserted | src/memory/memoryDatabase.ts:692-714 | the access time is set; an existing row keeps the counts the update does not give; a new row starts from zero counts |
| MemoryDatabase.SettingValue | src/memory/memoryDatabase.ts:792-796 | a setting is found iff its key is stored |
| MemoryDatabase.SettingAfterSet | src/memory/memoryDatabase.ts:792-804 | a read after a write returns the value written, and other keys are unchanged |
| MemoryDatabase.SettingAfterDelete | src/memory/memoryDatabase.ts:792-807 | after a delete the setting is gone, and other keys are unchanged |
| MemoryDatabase.Database.constructor | src/memory/memoryDatabase.ts:93-117 | the database opens with empty tables |
| MemoryDatabase.Database.UpsertPersonaState | src/memory/memoryDatabase.ts:692-714 | the persona's state row becomes the upserted state, and no other row changes |
| MemoryDatabase.Database.AddAssociations | src/memory/memoryDatabase.ts:426-472 | the associations become the pruned reinforce-or-insert result, the persona's row count is recorded, and the compound-index invariant `Valid` is kept |
| MemoryDatabase.Database.TouchAssociations | src/memory/memoryDatabase.ts:510-541 | the associations become the touch fold over the normalised keys, every stored row is touched once per used pair naming it (exposures, capped strength, use times, cleared cache as above), and `Valid` is kept |
| MemoryDatabase.Database.GetMessages | src/memory/memoryDatabase.ts:229-272 | returns the query page, and the returned messages get their access bookkeeping |
| MemoryDatabase.Database.Ranked | src/memory/memoryDatabase.ts:478-505 | the persona's rows in descending salience, a permutation of that persona's rows |
| MemoryDatabase.Database.RankedPairs | src/memory/memoryDatabase.ts:478-505 | one pair per ranked row |
| MemoryDatabase.Database.BuildFactsLine | src/memory/memoryDatabase.ts:579-604 | the facts line of the ranked pairs, with `isValidToken` as the token test, so `FactsLineSpec` applies to it: the first usable pair per right before the first overflow, and a line whenever the first one fits |
| MemoryDatabase.Database.FindAssociationsInText | src/memory/memoryDatabase.ts:542-574 | no rows or no text gives nothing; every result is the strongest pair for a text token; no key repeats; every token whose strongest pair exists has that pair's key covered |
| MemoryDatabase.Database.GetSetting | src/memory/memoryDatabase.ts:792-796 | reads the setting's value |
| MemoryDatabase.Database.SetSetting | src/memory/memoryDatabase.ts:797-804 | the setting is replaced by the new value and time |
| MemoryDatabase.Database.DeleteSetting | src/memory/memoryDatabase.ts:805-807 | the setting's key is removed and nothing else changes |
| MemoryDatabase.StoreTokensPassCacheTest | src/memory/memoryDatabase.ts:152-162 | a lower-case token the store accepts has at least three characters and a lower-case letter |
| LongTermDb.TimeKey | src/memory/longTermDB.ts:276-277 | the sort key `timestamp ? new Date(timestamp).getTime() : 0`; `ListingSpec` and `LastNSpec` prove the listings newest first by it |
| LongTermDb.FilterSortedDesc | src/memory/longTermDB.ts:275-290 | filtering a newest-first listing keeps it newest first |
| LongTermDb.MessageKey | src/memory/longTermDB.ts:84-95 | `getMessageKey`; `MessageKeyForms` and `MessageKeyDistinguishesIds` prove which form is chosen and that distinct ids give distinct keys |
| LongTermDb.MessageKeyForms | src/memory/longTermDB.ts:84-95 | the `id:`, `ts:` and `idx:` keys are each chosen exactly in their case: a finite id, else a parsable timestamp, else neither |
| LongTermDb.MessageKeyDistinguishesIds | src/memory/longTermDB.ts:84-87 | two messages with different finite ids get different keys at any positions |
| LongTermDb.ListingSpec | src/memory/longTermDB.ts:275-290 | the listing is newest first and a permutation of exactly the messages that pass the role and date filters |
| LongTermDb.ListingUnfiltered | src/memory/longTermDB.ts:283 | with no filter the listing is a permutation of all messages |
| LongTermDb.Paginated | src/memory/longTermDB.ts:262-300 | `getPersonaMessagesPaginated`; `PaginatedCounts`, `PaginatedItems` and `PaginatedWindow` prove its counts, filters and window |
| LongTermDb.PaginatedCounts | src/memory/longTermDB.ts:262-300 | the page echoes offset and limit with defaults 0 and 50, the total counts the passing messages, `hasMore` iff the listing goes past the page, and the item count is the window size |
| LongTermDb.PaginatedItems | src/memory/longTermDB.ts:275-293 | the items are newest first and all pass the filters |
| LongTermDb.PaginatedWindow | src/memory/longTermDB.ts:292-293 | the items are the `[offset, offset + limit)` window of the listing |
| LongTermDb.SliceKeeps | src/memory/longTermDB.ts:293 | a slice of a newest-first listing stays newest first and holds only listed messages |
| LongTermDb.LastN | src/memory/longTermDB.ts:346-370 | `getLastNMessages`; `LastNSpec` and `LastNNewest` prove it keeps the newest `n`, newest first |
| LongTermDb.LastNSpec | src/memory/longTermDB.ts:346-370 | the newest `n` messages, newest first, with `slice`'s from-the-end count for negative `n` |
| LongTermDb.LastNNewest | src/memory/longTermDB.ts:359-364 | no returned message is older than a dropped one |
| LongTermDb.TimeRange | src/memory/longTermDB.ts:321-345 | `getMessagesByTimeRange`; `TimeRangeSpec` proves exactly the messages in the inclusive range are kept |
| LongTermDb.TimeRangeSpec | src/memory/longTermDB.ts:321-345 | exactly the messages within the inclusive range, each as often as it occurs; an undated message counts as now |
| LongTermDb.Search | src/memory/longTermDB.ts:372-394 | `searchMessages`; `SearchSpec`, `SearchIgnoresCase` and `SearchNarrows` prove the case-insensitive containment filter |
| LongTermDb.SearchSpec | src/memory/longTermDB.ts:372-394 | exactly the messages whose lower-cased content contains the lower-cased query, each as often as it occurs |
| LongTermDb.SearchIgnoresCase | src/memory/longTermDB.ts:384-386 | the search ignores the query's case, and the empty query keeps every message |
| LongTermDb.SearchNarrows | src/memory/longTermDB.ts:384-386 | a result of a query is a result of every prefix of it |
| LongTermDb.ExtractKeywords | src/memory/longTermDB.ts:502-534 | the query tokenizer; `ExtractKeywordsSpec` proves it yields exactly the distinct qualifying words in first-occurrence order |
| LongTermDb.ExtractKeywordsSpec | src/memory/longTermDB.ts:502-534 | exactly the distinct words of the lower-cased, punctuation-free query longer than two characters and not stop words, in order of first occurrence; each lower-case and free of whitespace and of the deleted punctuation |
| LongTermDb.Primaries | src/memory/longTermDB.ts:441-474 | the number of primaries is at most `max(1, maxResults)` and at most the number of relevant messages |
| LongTermDb.Indices | src/memory/longTermDB.ts:420-428 | the indices `0..n-1` in order |
| LongTermDb.RelevantSpec | src/memory/longTermDB.ts:433-435 | exactly the indices scoring above 0.2, in non-increasing score order |
| LongTermDb.RelevantEmpty | src/memory/longTermDB.ts:433-439 | no index is relevant iff no message scores above 0.2 |
| LongTermDb.AddIndex | src/memory/longTermDB.ts:445-450 | an in-range unused index is appended and marked used; otherwise nothing changes; the selection stays duplicate-free and in range |
| LongTermDb.ExpandAround | src/memory/longTermDB.ts:452-476 | the primary and its admissible neighbours (other role, within ten minutes) are added, at most three indices, duplicate-free |
| LongTermDb.SelectWithNeighbours | src/memory/longTermDB.ts:441-480 | a duplicate-free selection of primaries and their neighbours, at most three per primary, led by the best primary, holding every primary unless it stopped at twice `max(1, maxResults)` |
| LongTermDb.Picked | src/memory/longTermDB.ts:481-496 | the selected messages in selection order |
| LongTermDb.Ordered | src/memory/longTermDB.ts:481-496 | the selected messages oldest first, the best primary among them |
| LongTermDb.SemanticSearch | src/memory/longTermDB.ts:396-499 | the results are oldest first, not excluded, at most three times `max(1, maxResults)`, and empty iff no kept message scores above the threshold |
| LongTermDb.Lookup | src/memory/longTermDB.ts:617-619 | finds a row of the persona iff one exists |
| LongTermDb.SavedIds | src/memory/longTermDB.ts:588-615 | an existing persona keeps its row id and the row count; a new persona gets the next id in a new row; ids stay increasing |
| LongTermDb.SavedLookup | src/memory/longTermDB.ts:588-615 | afterwards the persona's lookup returns the saved contents under the returned id |
| LongTermDb.SavedOthers | src/memory/longTermDB.ts:588-615 | no other persona's lookup changes |
| LongTermDb.Accessed | src/memory/longTermDB.ts:617-628 | only the persona's row changes, and only its access time |
| LongTermDb.AccessedKeepsContents | src/memory/longTermDB.ts:617-628 | reading a persona changes no persona's messages |
| LongTermDb.LongTermStore.constructor | src/memory/longTermDB.ts:31-66 | the store opens empty with ids starting at 1 |
| LongTermDb.LongTermStore.SavePersonaMemory | src/memory/longTermDB.ts:588-615 | the table becomes the saved outcome with the returned id, and the persona's messages are those saved |
| LongTermDb.LongTermStore.GetPersonaMemory | src/memory/longTermDB.ts:617-628 | returns the persona's row as read and stamps its access time |
| EmotionService.FindKeywordOccurrences | src/services/emotionService.ts:926-936 | for a non-empty keyword, exactly the positions where it occurs, in increasing order |
| EmotionService.TokensFromPlaced | src/services/emotionService.ts:892 | every split word is a maximal run of non-space characters at its own position |
| EmotionService.TokensFromOrdered | src/services/emotionService.ts:892 | the split words come in strictly increasing positions, separated by whitespace |
| EmotionService.TokenMembers | src/services/emotionService.ts:892 | every split word of the text is placed in the text |
| EmotionService.IndexOfTokenFrom | src/services/emotionService.ts:895-897 | searching from the end of the previous word finds each word at its own start |
| EmotionService.IndexOfToken | src/services/emotionService.ts:895-897 | `text.indexOf(word, currentIndex)` finds each word at its own start |
| EmotionService.ScopeEndSpec | src/services/emotionService.ts:900-911 | a scope ends at the first `.!?,;` after the negation word however far away; without one it ends 50 characters on or at the end of the text |
| EmotionService.MapFilterSnoc | src/services/emotionService.ts:895-918 | one more word adds at most that word's scope |
| EmotionService.NegationScopes | src/services/emotionService.ts:847-921 | the scopes of `detectNegationScopes`; `NegationScopesSpec`, `NegationScopesOrdered` and `NegationWordNegated` prove one scope per negation word, in order, covering the word |
| EmotionService.DetectNegationScopes | src/services/emotionService.ts:847-921 | the loop over the split words yields the scopes of the negation words |
| EmotionService.NegationScopesSpec | src/services/emotionService.ts:847-921 | one scope per negation word, starting where the word occurs in the text and ending at or after the word, within the text |
| EmotionService.NegationScopesOrdered | src/services/emotionService.ts:891-918 | the scopes come in order of start position |
| EmotionService.WithinNegationScope | src/services/emotionService.ts:941-948 | a position is within the scopes iff some scope holds it, both ends included |
| EmotionService.NegationWordNegated | src/services/emotionService.ts:895-918 | every character of a negation word lies within a detected scope |
| EmotionService.PrimaryEmotion | src/services/emotionService.ts:1549-1556 | `getPrimaryEmotion`: neutral for no emotions, else the head; `AdjustMentionsAvatar` proves which emotion is primary after adjustment |
| EmotionService.AdjustToAvatar | src/services/emotionService.ts:1653-1678 | `adjustResponseEmotionsToMatchAvatar`; `AdjustAddsAvatar`, `AdjustPromotesAvatar`, `AdjustKeeps` and `AdjustMentionsAvatar` prove its three cases |
| EmotionService.AdjustAddsAvatar | src/services/emotionService.ts:1671-1677 | a missing avatar emotion is put first, followed by the top four others |
| EmotionService.AdjustPromotesAvatar | src/services/emotionService.ts:1660-1667 | an avatar emotion scored below the head moves to the head at 1.1 times the head's score and appears only there |
| EmotionService.AdjustKeeps | src/services/emotionService.ts:1668 | an avatar emotion scored at least the head leaves the list unchanged |
| EmotionService.AdjustMentionsAvatar | src/services/emotionService.ts:1653-1678 | the adjusted list always names the avatar emotion, and it is primary unless it already scored at least the head |
| EmotionService.AppendedSpec | src/services/emotionService.ts:1694-1706 | the history keeps the newest ten entries and ends with the entry just added |
| EmotionService.CountPositive | src/services/emotionService.ts:1716-1719 | an emotion has a positive count iff it occurs in the history |
| EmotionService.AverageConstant | src/services/emotionService.ts:1742-1743 | entries of one confidence average to it |
| EmotionService.TrajectoryStable | src/services/emotionService.ts:1734-1750 | fewer than three entries, or an unchanging confidence, gives a stable trajectory |
| EmotionService.CountEmotions | src/services/emotionService.ts:1716-1719 | the counts and their insertion order are those of the history |
| EmotionService.CountStep | src/services/emotionService.ts:1717-1718 | one more entry adds its emotion to the order if new and raises its count by one |
| EmotionService.FirstMaximalIsMost | src/services/emotionService.ts:1721-1729 | the first key whose count beats all earlier ones is a most frequent emotion |
| EmotionService.FirstMaximalIsEarliest | src/services/emotionService.ts:1721-1729 | among equally frequent emotions it is the one seen first |
| EmotionService.MostFrequent | src/services/emotionService.ts:1721-1731 | the result occurs in the history, no emotion is more frequent, and ties go to the one seen first |
| EmotionService.EmotionHistoryTracker.constructor | src/services/emotionService.ts:1690-1692 | the tracker starts with an empty history |
| EmotionService.EmotionHistoryTracker.AddEmotion | src/services/emotionService.ts:1694-1706 | the history becomes the appended history |
| EmotionService.EmotionHistoryTracker.GetRecentTrend | src/services/emotionService.ts:1708-1732 | none iff the speaker's history is empty; otherwise a most frequent emotion, ties going to the one seen first |
| EmotionService.EmotionHistoryTracker.Clear | src/services/emotionService.ts:1752-1754 | the history becomes empty |
| EmotionService.ClassifyDialogueAct | src/services/emotionService.ts:1783-1806 | `classifyDialogueAct`; `QuestionMarkWins`, `PoliteRequestIsQuestion`, `CommandOpenings` and `GreetingIsPlain` prove the precedence of its tests |
| EmotionService.QuestionMarkWins | src/services/emotionService.ts:1788-1791 | a `?` in the trimmed text makes a question whatever else it holds |
| EmotionService.PoliteRequestIsQuestion | src/services/emotionService.ts:1789-1799 | "can you", "could you" and "would you" are caught by the question test first, so they are never commands |
| EmotionService.CommandOpenings | src/services/emotionService.ts:1799-1801 | a command has no `?` or `!` and opens with one of the other request words |
| EmotionService.GreetingIsPlain | src/services/emotionService.ts:1783-1806 | a greeting has none of the marks of a question, exclamation or command |
| ApiContext.ToLtmText | src/context/ApiContext.tsx:123-134 | `toLtmText`; its partner `ToLtmTextSpec` pins the trimmed content and the image reference line |
| ApiContext.ToLtmTextSpec | src/context/ApiContext.tsx:123-134 | without images the text is the trimmed content; with images it ends with the image reference tag, on its own line after any content |
| ApiContext.ImagePartsSpec | src/context/ApiContext.tsx:127-131 | the tag has a part iff there are images: `ids=` first exactly when there are ids, `count=` last exactly when there are images |
| ApiContext.LimitConversationHistory | src/context/ApiContext.tsx:284-296 | `limitConversationHistory`; `LimitSpec` proves display sees all and the model the last `2 * memoryBuffer` messages |
| ApiContext.LimitSpec | src/context/ApiContext.tsx:284-296 | display sees every message; the model sees the last `2 * memoryBuffer` messages, or all when there are fewer or the buffer is zero |
| ApiContext.FormatMemoriesForRag | src/context/ApiContext.tsx:439-469 | `formatMemoriesForRAG`; `FormatMemoriesSpec` proves the header, one speaker-prefixed system message per memory, and the footer |
| ApiContext.FormatMemoriesSpec | src/context/ApiContext.tsx:439-469 | no memories give nothing; otherwise two more messages than memories, all system messages, each memory prefixed by its speaker, between header and footer |
| ApiContext.ShortTermMemoryIds | src/context/ApiContext.tsx:472-476 | `getShortTermMemoryIds`; `ShortTermIdsMembers` and `ShortTermIdsAppend` prove it lists exactly the carried ids, in order |
| ApiContext.ShortTermIdsMembers | src/context/ApiContext.tsx:472-476 | an id is listed iff some message in the history carries it, and there are never more ids than messages |
| ApiContext.ShortTermIdsAppend | src/context/ApiContext.tsx:472-476 | the ids of two stretches of history are those of each, in order |
| ApiContext.StoreRestore | src/context/ApiContext.tsx:309-313 | saving and loading keeps each message's role and content in order, and drops ids and images |
| ApiContext.WithSession | src/context/ApiContext.tsx:142-200 | the storage effect of `loadPersonaHistory`; `WithSessionSpec` proves one empty session is appended exactly when the persona has none |
| ApiContext.WithSessionSpec | src/context/ApiContext.tsx:142-200 | exactly one empty session for the persona is appended when it has none; otherwise the stored history is unchanged |
| ApiContext.WithSessionIdempotent | src/context/ApiContext.tsx:142-200 | loading twice changes the stored history no more than loading once |
| ApiContext.Cleared | src/context/ApiContext.tsx:367-408 | the stored history after `clearConversation`; `ClearedSpec` proves only the target persona's entries are emptied |
| ApiContext.ClearedSpec | src/context/ApiContext.tsx:367-408 | the target persona's entries are emptied, no other entry changes, and only its first entry can take the new session id |
| ApiContext.FirstIndexSamePersona | src/context/ApiContext.tsx:396-399 | emptying entries does not move the first entry of a persona |
| ApiContext.SavedHistory | src/context/ApiContext.tsx:299-334 | the stored history after `saveCurrentConversation`; `SavedHistorySpec` and `SavedHistoryHolds` prove the active entry holds the saved messages and nothing else changes |
| ApiContext.SavedHistorySpec | src/context/ApiContext.tsx:299-334 | without an active session nothing changes; otherwise the session's entries take the messages in place, or exactly one entry is appended, and nothing else changes |
| ApiContext.SavedHistoryHolds | src/context/ApiContext.tsx:299-334 | after a save the active session's entry holds exactly the saved messages |
| ApiContext.ApiSession.constructor | src/context/ApiContext.tsx:116-120 | the provider starts on the default persona with an empty conversation and no active session |
| ApiContext.ApiSession.LoadPersonaHistory | src/context/ApiContext.tsx:142-200 | resumes the persona's first stored session with its messages, or starts an empty one under the new id, and updates the stored history accordingly |
| ApiContext.ApiSession.SaveCurrentConversation | src/context/ApiContext.tsx:299-334 | the stored history becomes the saved history of the active session |
| ApiContext.ApiSession.ClearConversation | src/context/ApiContext.tsx:367-408 | the named persona, or the current one, is cleared in storage; clearing the current one empties the conversation and starts the new session |
| TokenTracking.WithUsage | src/utils/tokenTracker.ts:44-58 | recording a category sets only that category and keeps the session and start time |
| TokenTracking.Usage | src/utils/tokenTracker.ts:50-56 | the recorded total is the sum of the prompt and completion tokens |
| TokenTracking.SummaryOf | src/utils/tokenTracker.ts:63-128 | the summary `completeQuery` builds; `SummarySpec` proves its totals and breakdown add up |
| TokenTracking.SummarySpec | src/utils/tokenTracker.ts:63-128 | the summary totals are sums over the recorded categories, the breakdown adds up to the total, the total is prompt plus completion for recorded usages, and a query with nothing recorded sums to zero |
| TokenTracking.Retained | src/utils/tokenTracker.ts:156-159 | a log longer than 100 keeps its newest 100 entries, in order |
| TokenTracking.Logged | src/utils/tokenTracker.ts:133-165 | the log `logToStorage` leaves; `LoggedSpec` and `Retained` prove the new summary is last and at most 100 newest are kept |
| TokenTracking.LoggedSpec | src/utils/tokenTracker.ts:133-165 | the new summary is appended last after the newest earlier ones, at most 100 in all, every earlier one kept while there is room |
| TokenTracking.GetStats | src/utils/tokenTracker.ts:170-198 | an unparsable log gives zeros; otherwise the count and total of today's summaries and their average rounded half up, zero for no queries |
| TokenTracking.SumTokensBounds | src/utils/tokenTracker.ts:183-186 | a sum of totals lies between count times the smallest and count times the largest |
| TokenTracking.StatsAverageBounded | src/utils/tokenTracker.ts:187-188 | the average lies between the smallest and the largest of today's totals |
| TokenTracking.StatsAfterLogging | src/utils/tokenTracker.ts:133-198 | with room in the log, completing a query today adds one to today's count and its tokens to today's total |
| TokenTracking.TokenTracker.constructor | src/utils/tokenTracker.ts:21-22 | the tracker starts with no query in flight |
| TokenTracking.TokenTracker.StartQuery | src/utils/tokenTracker.ts:27-32 | the session is (re)started at the given time with nothing recorded, and no other query changes |
| TokenTracking.TokenTracker.Reset | src/utils/tokenTracker.ts:37-39 | every query in flight is forgotten |
| TokenTracking.TokenTracker.AddTokens | src/utils/tokenTracker.ts:44-58 | an unknown session is ignored; otherwise only that category of that query is set |
| TokenTracking.TokenTracker.CompleteQuery | src/utils/tokenTracker.ts:63-128 | an unknown session changes nothing; otherwise its summary is logged and it stops being tracked |
| TokenTracking.TokenTracker.LogToStorage | src/utils/tokenTracker.ts:133-165 | the storage slot becomes the logged history (an unparsable log left as it was), the property `LoggedSpec` proves |
| OpenAiApi.AvailableModels | src/utils/openaiApi.ts:103-111 | four distinct models, the default among them |
| OpenAiApi.LogTokenUsage | src/utils/openaiApi.ts:72-98 | an unparsable log is left as it was; otherwise exactly one entry copied from the usage is appended |
| OpenAiApi.OfModelNonEmpty | src/utils/openaiApi.ts:187-190 | a model has entries iff some entry names it |
| OpenAiApi.ByModel | src/utils/openaiApi.ts:186-190 | the per-model fold; `ByModelSpec`, `ByModelOfModel` and `ByModelSum` prove its keys, values and sum |
| OpenAiApi.ByModelSpec | src/utils/openaiApi.ts:187-190 | the per-model table has a key for exactly the models in the log, each holding the total of that model's entries |
| OpenAiApi.ByModelOfModel | src/utils/openaiApi.ts:187-190 | the per-model value is the summed total of that model's entries |
| OpenAiApi.ByModelSum | src/utils/openaiApi.ts:186-190 | the per-model totals add up to the overall total |
| OpenAiApi.GetTokenUsageStats | src/utils/openaiApi.ts:176-196 | an unset or unparsable log gives zero and an empty table; otherwise the overall and per-model totals |
| OpenAiApi.ChatRequest | src/utils/openaiApi.ts:113-135 | fails iff no key is set; otherwise the system message of preamble and persona prompt first, the history as given, and the user's message last |
| PerformanceMetrics.WithMetric | src/utils/performanceMetrics.ts:286-292 | the new metric is last, at most 5000 are kept, the newest earlier ones, and all of them while there is room |
| PerformanceMetrics.ResponseStats | src/utils/performanceMetrics.ts:423-445 | the count of times, a minimum and a maximum that are among the times and bound every one, and the exact mean, which lies between them |
| PerformanceMetrics.BumpTallies | src/utils/performanceMetrics.ts:568-573 | one more resource adds one to its type's count and its size to its type's size |
| PerformanceMetrics.ByTypeSums | src/utils/performanceMetrics.ts:562-574 | the per-type counts add up to the number of resources and the per-type sizes to the total size |
| PerformanceMetrics.Slowest | src/utils/performanceMetrics.ts:582-583 | the sort and the cut to five; `SlowestSpec` proves at most five in non-increasing duration, the first the slowest |
| PerformanceMetrics.SlowestSpec | src/utils/performanceMetrics.ts:582-583 | at most five entries, in non-increasing duration order, the first as slow as any resource, and every resource when there are at most five |
| PerformanceMetrics.ResourceSummaryOf | src/utils/performanceMetrics.ts:547-586 | the resource summary; `ByTypeSums` proves the per-type tallies and `SummarizeResources` that the loop computes it |
| PerformanceMetrics.SummarizeResources | src/utils/performanceMetrics.ts:547-586 | the loop over the resources, the sort and the cut give the resource summary |
| PerformanceMetrics.AfterLastSlash | src/utils/performanceMetrics.ts:823 | the text after the last `/` is a suffix holding no `/` |
| PerformanceMetrics.AllAssessedConcat | src/utils/performanceMetrics.ts:673-843 | scored findings stay scored when joined |
| PerformanceMetrics.AssessmentsAssessed | src/utils/performanceMetrics.ts:682-801 | every factor the summary examines is scored 30, 70 or 100 |
| PerformanceMetrics.TotalPointsBounds | src/utils/performanceMetrics.ts:842-843 | the points of the scored factors lie between 30 and 100 per factor |
| PerformanceMetrics.SummaryOf | src/utils/performanceMetrics.ts:673-856 | the summary `generatePerformanceSummary` attaches; `SummarySpec` proves its score bounds and non-empty advice |
| PerformanceMetrics.SummarySpec | src/utils/performanceMetrics.ts:673-856 | the score is the rounded mean of the factors' points, in [30, 100] when something was assessed and 0 otherwise, with at least one recommendation |
| PerformanceMetrics.AdviceSnoc | src/utils/performanceMetrics.ts:673-856 | one more finding adds its advice and its points |
| PerformanceMetrics.Score | src/utils/performanceMetrics.ts:682-801 | a scored factor adds its finding, its points and, when poor, its advice |
| PerformanceMetrics.ScoreMemory | src/utils/performanceMetrics.ts:682-712 | the memory block adds the memory finding, if any |
| PerformanceMetrics.ScoreFrameRate | src/utils/performanceMetrics.ts:715-737 | the frame-rate block adds the frame-rate finding, if any |
| PerformanceMetrics.ScorePaint | src/utils/performanceMetrics.ts:741-760 | the paint block adds the paint finding, if any |
| PerformanceMetrics.ScoreLayoutShift | src/utils/performanceMetrics.ts:762-775 | the layout-shift block adds the layout-shift finding, if any |
| PerformanceMetrics.ScoreAi | src/utils/performanceMetrics.ts:779-801 | the AI block adds the response-time finding, if any |
| PerformanceMetrics.ScoreSize | src/utils/performanceMetrics.ts:804-820 | the resource-size block adds the size finding, if any |
| PerformanceMetrics.Assess | src/utils/performanceMetrics.ts:673-820 | the factor-by-factor examination tallies the report's findings |
| PerformanceMetrics.Summarize | src/utils/performanceMetrics.ts:673-856 | the summary of the report: findings, slowest resource, score and advice |
| PerformanceMetrics.CollectedSpec | src/utils/performanceMetrics.ts:866-874 | the collected report carries the timeline's summary and the session duration as its newest metric |
| PerformanceMetrics.FinalReportSpec | src/utils/performanceMetrics.ts:861-877 | a generated report with a timeline has a summary scored in [30, 100] with at least one recommendation, the timeline's summary, and the session duration as its newest metric |
| PerformanceMetrics.PerformanceMonitor.constructor | src/utils/performanceMetrics.ts:82-91 | monitoring starts enabled exactly in development mode, with no report, no times and no timers |
| PerformanceMetrics.PerformanceMonitor.InitPerformanceMonitoring | src/utils/performanceMetrics.ts:152-206 | when enabled, a fresh empty report and no recorded times; otherwise nothing changes |
| PerformanceMetrics.PerformanceMonitor.SetMetricsEnabled | src/utils/performanceMetrics.ts:939-945 | monitoring is on iff asked for in development mode; turning it on without a report starts one |
| PerformanceMetrics.PerformanceMonitor.CaptureMetric | src/utils/performanceMetrics.ts:276-293 | a no-op when disabled or without a report; otherwise the metric is added |
| PerformanceMetrics.PerformanceMonitor.UpdateAiPerformanceMetrics | src/utils/performanceMetrics.ts:423-457 | with recorded times the statistics and the token totals are attached; otherwise nothing changes |
| PerformanceMetrics.PerformanceMonitor.TrackAiResponseTime | src/utils/performanceMetrics.ts:411-418 | the time is recorded and the statistics refreshed when monitoring |
| PerformanceMetrics.PerformanceMonitor.StartTimer | src/utils/performanceMetrics.ts:655-658 | when enabled the timer is (re)started at the given `performance.now()` reading |
| PerformanceMetrics.PerformanceMonitor.EndTimer | src/utils/performanceMetrics.ts:660-668 | none iff disabled, no timer runs under the name, or its start reading is 0 (`!timers[name]`); otherwise the elapsed time on the `performance.now()` clock, the timer is removed, and the duration is recorded as a metric stamped with the `Date.now()` time |
| PerformanceMetrics.PerformanceMonitor.CaptureResourceTiming | src/utils/performanceMetrics.ts:515-542 | with a timeline the resource summary is attached; otherwise nothing changes |
| PerformanceMetrics.PerformanceMonitor.CaptureMemoryInfo | src/utils/performanceMetrics.ts:591-603 | with heap figures the memory info is attached; otherwise nothing changes |
| PerformanceMetrics.PerformanceMonitor.CaptureWebVitals | src/utils/performanceMetrics.ts:299-311 | the vitals start over, holding the time to first byte when a navigation entry exists |
| PerformanceMetrics.PerformanceMonitor.GeneratePerformanceSummary | src/utils/performanceMetrics.ts:673-856 | the summary of the current report is attached |
| PerformanceMetrics.PerformanceMonitor.CaptureFinalMeasurements | src/utils/performanceMetrics.ts:866-870 | the final captures are made into the report |
| PerformanceMetrics.PerformanceMonitor.BeginReport | src/utils/performanceMetrics.ts:861-877 | refused when disabled, without a report or while generating; otherwise the generating flag is set and the final report collected and returned |
| PerformanceMetrics.PerformanceMonitor.Collect | src/utils/performanceMetrics.ts:866-877 | the report becomes the final report |
| PerformanceMetrics.PerformanceMonitor.FinishReport | src/utils/performanceMetrics.ts:928-933 | the report is discarded and the generating flag cleared |
| KeyValidation.OpenAiPrecheck | src/utils/keyValidation.ts:16-33 | an empty key, a key without `sk-` and a key with any other character than letters, digits, `_` and `-` after it are rejected with their messages, in that order, and only a well-formed key is sent |
| KeyValidation.ElevenLabsPrecheck | src/utils/keyValidation.ts:92-103 | no key is valid, a key under 10 characters is rejected, and every other key is sent |
| KeyValidation.SanitizeKeyForLogging | src/utils/keyValidation.ts:171-181 | a key under 12 characters becomes the invalid mark; a longer one keeps its first 8 and last 4 characters around at least four `*` |
| KeyValidation.SanitizedRevealsTwelve | src/utils/keyValidation.ts:171-181 | a logged key shows at most the 12 characters at its ends |
| KeyValidation.HasRepeatedRun | src/utils/keyValidation.ts:197 | `/(.)\1{3,}/` on UTF-16 units; `AssessKeyStrength` proves the repeat issue is reported iff it holds |
| KeyValidation.Issues | src/utils/keyValidation.ts:186-213 | the issue list; `AssessKeyStrength` proves each issue is reported iff its pattern holds, with no repeats |
| KeyValidation.AssessKeyStrength | src/utils/keyValidation.ts:186-213 | each issue is reported iff its pattern is present, at most three, no repeats; weak with all three, medium with one or two, strong with none |
| KeyValidation.Warnings | src/utils/keyValidation.ts:145-166 | the warnings over every key and pattern; `WarningsSound`, `KeyWarned` and `NoKeysNoWarnings` prove they are exactly the keys holding a pattern |
| KeyValidation.PatternWarningsSpec | src/utils/keyValidation.ts:154-163 | each pattern found in a key gives one warning naming that key |
| KeyValidation.WarningsSound | src/utils/keyValidation.ts:145-166 | every warning names a non-empty key that contains one of the patterns |
| KeyValidation.NoKeysNoWarnings | src/utils/keyValidation.ts:145-166 | with no key set there are no warnings |
| KeyValidation.PatternWarned | src/utils/keyValidation.ts:154-163 | a key containing a pattern is warned about |
| KeyValidation.KeyWarned | src/utils/keyValidation.ts:145-166 | a non-empty key containing a pattern is warned about |
| KeyValidation.ScanKeys | src/utils/keyValidation.ts:154-163 | the nested loops compute the warnings of every key and pattern |
| KeyValidation.CheckForCompromisedKeys | src/utils/keyValidation.ts:145-166 | the warnings for the stored keys and the suspicious patterns |
| ApiKeyManagement.MaskApiKey | src/components/Settings/ApiKeyManager.tsx:133-137 | the mask is as long as the key; a key of 8 or fewer characters is all `*`; a longer one keeps its first and last four characters with `*` between |
| ApiKeyManagement.MaskHidesMiddle | src/components/Settings/ApiKeyManager.tsx:133-137 | every shown character is the key's own or a `*`, and only the first and last four can be the key's |
| ApiKeyManagement.PrecheckedKeySaveable | src/components/Settings/ApiKeyManager.tsx:109-115 | a key that passes the OpenAI format checks also passes the save guard |
| ApiKeyManagement.ApiKeyManager.constructor | src/components/Settings/ApiKeyManager.tsx:92-96 | the panel opens with the stored keys and no status |
| ApiKeyManagement.ApiKeyManager.ChangeOpenAiKey | src/components/Settings/ApiKeyManager.tsx:98-104 | only the OpenAI key being edited changes |
| ApiKeyManagement.ApiKeyManager.ChangeElevenLabsKey | src/components/Settings/ApiKeyManager.tsx:98-104 | only the ElevenLabs key being edited changes |
| ApiKeyManagement.ApiKeyManager.HandleSave | src/components/Settings/ApiKeyManager.tsx:106-130 | a non-empty OpenAI key without `sk-` is refused with nothing written; a failing store writes nothing and reports the error; otherwise the keys are stored and success reported |
| SecurityConfiguration.PresetsValid | src/utils/securityConfig.ts:40-207 | all three presets pass the validation, and the development preset neither blocks nor watches for developer tools |
| SecurityConfiguration.DefaultConfigForEnv | src/utils/securityConfig.ts:170-181 | production gives the production preset, test and staging the testing preset, anything else the development preset, and the result always validates |
| SecurityConfiguration.GetSecurityConfig | src/utils/securityConfig.ts:140-165 | a custom configuration is used exactly when it is given and validates; otherwise the environment's default; the result always validates |
| SecurityConfiguration.Migrate | src/utils/securityMigration.ts:11-31 | text selection, anti-debugging, data clearing and reloading are switched off, the response is soft, the three numbers are raised to at least 200, 1000 and 5000, and every other setting is kept |
| SecurityConfiguration.MigrateSettles | src/utils/securityMigration.ts:11-44 | a migrated configuration needs no further migration, validates, and migrating it again changes nothing |
| SecurityConfiguration.AutoMigrate | src/utils/securityMigration.ts:49-57 | a configuration needing migration is migrated and any other is returned unchanged, so the result never needs migration |
| SecurityConfiguration.MigrationCheckIsPartial | src/utils/securityMigration.ts:36-44 | the migration check ignores the warning duration, so an unmigrated configuration can pass it; the production preset is already migrated |
| Legacy.LegacyToMessage | src/types/legacy.ts:17-26 | a user flag becomes the user role and otherwise the assistant role; text, id and timestamp are kept; no images |
| Legacy.MessageToLegacy | src/types/legacy.ts:28-37 | the user flag is set iff the role is user; content and id are kept; a missing timestamp becomes now |
| Legacy.LegacyRoundTrip | src/types/legacy.ts:17-37 | old to new and back gives the same old message |
| Legacy.MessageRoundTrip | src/types/legacy.ts:17-37 | new to old and back keeps id, content and a user or assistant role; a system message returns as assistant; images are lost |
| Legacy.MessageRoundTripExact | src/types/legacy.ts:17-37 | the round trip is exact iff the message is a dated user or assistant message without images |
| Humanization.ContextualTemperature | src/utils/humanization.ts:13-44 | the temperature is one of 0.7, 0.75, 0.9, 0.95 and 1.0, and it is 1.0 exactly for a creative emotion |
| Humanization.TemperaturePrecedence | src/utils/humanization.ts:20-31 | a creative emotion gives 1.0 even for a coding question; otherwise a coding word gives 0.7 whatever the length |
| Humanization.TemperatureByLength | src/utils/humanization.ts:33-43 | without either, fewer than 5 pieces give 0.95, more than 100 give 0.75, and anything between gives 0.9 |
| Humanization.TokensForWords | src/utils/humanization.ts:54-62 | the budget is one of 150, 500, 1000 and 1500 |
| Humanization.AdaptiveMaxTokens | src/utils/humanization.ts:47-63 | the budget is one of 150, 500, 1000 and 1500 |
| Humanization.MaxTokensBands | src/utils/humanization.ts:51-62 | 150 iff fewer than 10 pieces, 500 iff 10 to 29, 1000 iff 30 to 69, 1500 otherwise |
| Humanization.MaxTokensMonotone | src/utils/humanization.ts:47-63 | a message with more pieces never gets a smaller budget, whatever the conversation depths |
| Humanization.BackchannelResponse | src/utils/humanization.ts:66-98 | a reply iff the trimmed, lower-cased message is in full one of the acknowledgement alternatives, and the reply is one of the nine |
| Humanization.FirstMatch | src/utils/humanization.ts:79-80 | the first pattern that matches in full, with none matching before it |
| Humanization.DetectContext | src/utils/humanization.ts:146-188 | technical iff a technical word occurs, then urgent iff an urgent word also occurs; creative iff a creative word and no technical one; emotional iff neither and a distressing emotion; general otherwise |
| Humanization.ContextShape | src/utils/humanization.ts:146-188 | the formality is never professional and is casual exactly for creative and emotional talk; emotional talk is urgent, creative and general talk relaxed, technical talk at least medium |
| Humanization.ToneModifier | src/utils/humanization.ts:191-209 | each tone is chosen exactly when its rule is the first that applies, and no modifier otherwise |
| Humanization.DetectedTone | src/utils/humanization.ts:146-209 | a detected context never gets the professional tone, and gets no modifier exactly for non-urgent technical or general talk |
| Humanization.PhraseLenOf | src/utils/humanization.ts:218 | a phrase found at the start is three word runs separated by space runs, ending at a word boundary |
| Humanization.PhraseLen | src/utils/humanization.ts:218 | a phrase found at the start is a three-word match ending at a word boundary |
| Humanization.Phrases | src/utils/humanization.ts:218 | every match of the global expression is a three-word phrase |
| Humanization.PhraseLenOfWhole | src/utils/humanization.ts:218 | with disjoint word and space classes, a whole phrase is matched to its full length |
| Humanization.WholePhrase | src/utils/humanization.ts:218 | a phrase on its own yields exactly one match, itself: the matching does not split or miss it |
| Humanization.OverusedSpec | src/utils/humanization.ts:231-238 | the overused phrases are exactly those seen more than twice, once each, in order of first use |
| Humanization.AvoidanceHintSpec | src/utils/humanization.ts:227-243 | no hint under five phrases or with none seen more than twice; otherwise the hint names the first one to three overused phrases, each once |
| Humanization.FilterAgree | src/utils/humanization.ts:236-238 | filtering by two tests that agree on every element gives the same list |
| Humanization.CountPhrases | src/utils/humanization.ts:231-234 | the count of each tracked phrase, and the phrases in the order the map first received them |
| Humanization.PhraseTracker.constructor | src/utils/humanization.ts:212-214 | tracking starts with no phrases |
| Humanization.PhraseTracker.RecordPhrase | src/utils/humanization.ts:216-225 | the reply's phrases are appended and only the newest 20 kept |
| Humanization.PhraseTracker.GetAvoidanceHint | src/utils/humanization.ts:227-243 | the hint is the avoidance hint of the tracked phrases |
| RefreshDetection.RecentSpec | public/debug-tool.js:63-64 | the kept times are the stored times within the window, in order, followed by now; exactly the times within the window, each as often as it occurred |
| RefreshDetection.LoopNeedsFourEarlier | public/debug-tool.js:63-67 | a loop is reported only when at least four earlier loads lie within the window |
| RefreshDetection.RefreshTimestamps | public/debug-tool.js:41-49 | an unset key or unparsable text reads as no times; otherwise the stored times |
| RefreshDetection.RefreshDetector.constructor | public/debug-tool.js:41-57 | the detector works over the given stored value |
| RefreshDetection.RefreshDetector.RecordRefresh | public/debug-tool.js:59-155 | a loop is reported iff at least five times are kept, and then the key is removed; otherwise the kept times are saved unless the write fails |
| RefreshDetection.RestartAfterLoop | public/debug-tool.js:67-69 | after a reported loop the next load is alone in its window |
| RefreshDetection.OldTimesForgotten | public/debug-tool.js:63-64 | when every stored time is outside the window only now is kept |
| RefreshDetection.NoneKept | public/debug-tool.js:64 | no stored time outside the window is kept |
| Logging.RanksOrdered | src/utils/logger.ts:15-20 | the ranks rise strictly from debug to error and tell the levels apart |
| Logging.ParseLevel | src/utils/logger.ts:27 | unset or empty means info; each level name means that level; anything else is unrecognised |
| Logging.ConfigFromEnv | src/utils/logger.ts:22-30 | console logging and the development flag follow `NODE_ENV` being `development`; performance logging needs the flag `true` |
| Logging.ShouldLog | src/utils/logger.ts:32-37 | `shouldLog`; `DisabledOnlyErrors`, `EnabledByRank`, `UpwardClosed` and `ErrorsPass` prove when it passes |
| Logging.DisabledOnlyErrors | src/utils/logger.ts:32-37 | with console logging off only errors can be logged, and they are iff the configured level is recognised |
| Logging.EnabledByRank | src/utils/logger.ts:32-37 | with console logging on a level passes iff its rank reaches the configured one, so higher levels pass too |
| Logging.UpwardClosed | src/utils/logger.ts:32-37 | whatever passes, every higher level passes |
| Logging.ErrorsPass | src/utils/logger.ts:32-37 | errors pass under every recognised level; an unrecognised level silences everything |
| Logging.Log | src/utils/logger.ts:39-61 | a line iff the level passes, holding the level's prefix and the message |
| Logging.Performance | src/utils/logger.ts:63-67 | a line iff both the performance flag and the development flag are on |
| Logging.System | src/utils/logger.ts:70-72 | system lines are always written |
| Logging.ProductionLogging | src/utils/logger.ts:22-72 | outside development only errors and system lines are written |
| Ordering.SortDescSpec | src/memory/associativeMemory.ts:259 | the sorted copy is in non-increasing key order and is a permutation of the list |
| Ordering.SortDescStable | src/memory/associativeMemory.ts:259 | the sort is stable: for every key, the elements with that key come out in their input order |

## Left out

- Model inference in `backend/main.py` is out: tokenisation, generation, device placement, `get_device`, the GPU figures of `/health`, FastAPI routing and CORS. These are foreign calls, so the decoded model output is a parameter.
- Background model loading and the race between two first loads are out: both are concurrency.
- Storage is out: Dexie/IndexedDB, localStorage and JSON parsing. Each stored value is a slot that is missing, unparsable or a value. Tables are sequences or maps.
- Storage housekeeping is out: the long-term schema upgrade, `migrateFromLocalStorage`, and export/import of either store.
- Some table operations are not modelled: adding and full-text searching messages in the table store, and the users, AI-configuration and voice-configuration tables. Reading pages of messages is modelled.
- Floating-point scoring is represented, not computed:
  - emotion keyword weights, softmax, thresholds, calibration and coherence suppression;
  - association salience, decay and recency;
  - long-term similarity scores.
  - These enter the model as integer keys or predicates supplied by the caller.
- MemoryDatabase.StoreTouchAllTallies: the strength after repeated touches is stated only for a non-negative stored strength, because `strength || 1` would turn a negative strength that a touch raises to exactly 0 into 1; no writer of the table stores a negative strength.
- Association salience is modelled by its ordering only. Strengths are exact reals with the `1e6` cap.
- Asynchronous work is out: the cache's `scheduleRefresh`/`ensureMigration`, and the performance monitor's animation-frame and frame-rate tracking, intervals, observers and fetch hooks.
- Several performance-monitor operations are not modelled: `captureNavigationTiming`, `markEvent`, `clearPerformanceData`, report upload and download, the keyboard shortcut and periodic collection. Navigation and heap readings are parameters.
- The network half of key validation (the request to each service and the reading of its reply) and `getRecommendedConfig` are out.
- Randomness enters as a parameter: the backchannel reply choice is an index `pick`. Session ids and uuids are also parameters.
- Clocks enter as parameters: `new Date()` and `Date.now()` are a `now` argument, and the monotonic `performance.now()` of the timers is a separate `perfNow` argument. ISO timestamp strings are the instant they name.
- Text fidelity: lower-casing is ASCII only, and lengths count Dafny characters rather than UTF-16 code units. One whitespace set, `Text.IsSpace`, stands for JavaScript's `trim` and `\s` and also for Python's `str.strip` and `str.split` in the backend. It holds the common spaces and line breaks, no-break space, U+FEFF and the line and paragraph separators. It leaves out the other Unicode spaces, U+001C to U+001F and U+0085, which Python strips. It includes U+FEFF, which Python does not strip.
- Real numbers are exact reals, so `0.9 + 0.05` is exactly `0.95`, not a binary floating-point sum.
- Humanization prompt helpers are not modelled: `buildProsodicPrompt`, `buildHumanizedSystemPrompt` and the regular-expression post-processing of `postProcessResponse`. Each is string assembly around the modelled rules.
- Logger output is partly out: `createScopedLogger`, the optional error argument and the extra console arguments. Console output is a returned line.
- The OpenAI request preamble is a parameter. The request itself and the reply are out.
- The refresh detector's DOM banner and console messages are out. A stored value that parses to something other than a list, which makes `recordRefresh` throw, is out too.
- The long-term memory writes of two session operations are out. `ApiContext.ApiSession.SaveCurrentConversation` does not model the `savePersonaMemory` copy at src/context/ApiContext.tsx:336-360. `ApiContext.ApiSession.ClearConversation` does not model `deletePersonaMemory` (src/context/ApiContext.tsx:412) or `clearPersonaAssociations` (src/context/ApiContext.tsx:418). These go to the long-term store and the association cache, which these session operations do not hold. Failures of these calls are caught and logged, so they do not change the session state.
- Humanization.Phrases: the contract proves every match is a three-word phrase, and `WholePhrase` proves a lone phrase is found exactly once. It does not prove that every match in a longer text is found.
- LongTermDb.TimeKey: a timestamp that does not parse sorts as time 0. In the source `new Date(...).getTime()` is `NaN` there, and the comparators at src/memory/longTermDB.ts:275-279, 359-363 and 414-418 then return `NaN`, which leaves the sort order to the engine. The model fixes one order, so its listing lemmas say nothing about the engine's order for such messages.
- PerformanceMetrics.Summarize: each key finding is a structured `Finding` record (the factor and its rating band, or the slowest resource's name and duration), not the `toFixed`-formatted sentence the source pushes at src/utils/performanceMetrics.ts:687-843. The wording and decimal rounding of those sentences are not modelled.
