# WPS Writer assistant: a verified model

This project models the core of a Claude assistant plug-in for WPS Office Writer. It has three parts.

- **The local proxy** (`proxy-server.js`):
  - It relays the WPS document context.
  - It queues code for the WPS add-in to run, keeps the results for 60 seconds, and queues "add to chat" pushes.
  - Its `/chat` handler chooses skills, builds the prompt and the CLI arguments, and relays the CLI's stream-json output as server-sent events.
- **The WPS add-in** (`wps-addon/main.js`):
  - It reads the heading outline.
  - It takes paragraph snapshots before and after running code and diffs them.
  - It polls the proxy for code, runs it, and reports the result.
- **The task pane** (React/TypeScript):
  - The client builds the context string and the request, reads the SSE stream, and extracts fenced code blocks.
  - The adapter reads the context, runs code by polling for its result, and watches the selection.
  - The session store derives titles and updates memory.
  - The chat app handles send, stream, complete (ask, agent and plan modes), stop, paste and code runs.
  - The quick-action cards, diff panel, code block card and history panel are modelled for what they decide and display.

Each source component is one Dafny module:

| module | file | source |
|---|---|---|
| `CodeBridge`, `StreamRelay`, `PromptComposer` | `code_bridge.dfy`, `stream_relay.dfy`, `prompt_composer.dfy` | `proxy-server.js` |
| `WpsAddon` | `wps_addon.dfy` | `wps-addon/main.js` |
| `ClaudeClient` | `claude_client.dfy` | `src/api/claudeClient.ts` |
| `WpsAdapter` | `wps_adapter.dfy` | `src/api/wpsAdapter.ts` |
| `SessionStore` | `session_store.dfy` | `src/api/sessionStore.ts` |
| `ChatApp` | `app.dfy` | `src/App.tsx` |
| `QuickActions`, `DiffPanel`, `CodeBlockCard`, `HistoryPanel` | `quick_actions.dfy`, `diff_panel.dfy`, `code_block.dfy`, `history_panel.dfy` | `src/components/*.tsx` |
| `UiTypes`, `Wrappers`, `Strings`, `Sequences` | `ui_types.dfy`, `common.dfy` | shared types and JavaScript string helpers |

## How the model is built

State that the source updates in place is a Dafny `class`:

- the proxy's code bridge and add-to-chat queue;
- one `/chat` relay;
- the adapter's selection watch and its subscription;
- the quick-action collector and its debounce;
- the code block card;
- the chat app's state.

Every method of these classes is proved against a specification function on values.

Loops in the source are `while` loops with invariants. This covers:

- the outline, context, prompt and history writers;
- `matchSkills`, `computeDiff`, `extractCodeBlocks`;
- the SSE read loops, the result poll and the agent run loop.

Pure logic is functions and lemmas.

**Environment values become parameters.** The model takes as parameters:

- every value that comes from the network, the WPS host, `JSON.parse`, the clock or `nanoid`;
- whether each code run returned, threw, timed out or is still pending.

**JavaScript semantics are written out:**

- `??` and truthiness;
- `String.prototype.trim`, `split`, `substring`, `toLowerCase` (ASCII letters only);
- the regular expressions the code uses, as explicit scanners.

**A terminal `result` event replaces the answer.** `proxy-server.js:814-816` replaces the accumulated answer with any non-empty `result` event, even after text deltas arrived. `StreamRelay.StepCases` states this.

## Model

| member | source | states |
|---|---|---|
| CodeBridge.ExecIdInjective | proxy-server.js:573 | the id `exec-<counter>-<time>` determines both the counter and the time, so different submissions get different ids |
| CodeBridge.Bridge.constructor | proxy-server.js:565-567 | the bridge starts with an empty queue, an empty result table, counter 0 and no timers |
| CodeBridge.Bridge.Submit | proxy-server.js:569-576 | missing or empty code is refused and changes nothing; otherwise the counter is pre-incremented and one task with a fresh id (unlike every queued id) is appended at the tail of the queue |
| CodeBridge.Bridge.PollPending | proxy-server.js:578-584 | an empty queue gives nothing and changes nothing; otherwise the head task is returned and removed, and nothing else changes |
| CodeBridge.Bridge.ReportResult | proxy-server.js:586-601 | a report is accepted iff it has a truthy id; an accepted report overwrites the entry for the id with the given fields and sets a deletion timer 60 s ahead |
| CodeBridge.Bridge.Lookup | proxy-server.js:603-607 | an entry is ready iff the table holds the id, and then it is the stored entry |
| CodeBridge.Bridge.Tick | proxy-server.js:597-599 | when time passes, exactly the due timers fire, in order, each deleting its id, and the queue and counter are untouched |
| CodeBridge.TickKeepsTimers | proxy-server.js:597-599 | after time passes, the remaining timers are still in order and pending within 60 s, and every surviving result keeps its own timer |
| CodeBridge.Bridge.EntriesExpireWithinTtl | proxy-server.js:594-599 | no stored result outlives its report by 60 s or more |
| CodeBridge.Evict | proxy-server.js:597-599 | after a sequence of timers fires, an id remains iff it was present and none of those timers was for it; surviving entries are unchanged |
| CodeBridge.EvictStep | proxy-server.js:598 | one more timer deletes one more entry, its own |
| CodeBridge.DueCount | proxy-server.js:597-599 | the due timers are a prefix of the timer list, all at or before now, and the next one is later |
| CodeBridge.RemainingTimersAreLater | proxy-server.js:597-599 | with timers in firing order, every timer left after the due ones is later than now |
| CodeBridge.EvictKeepsOwnTimers | proxy-server.js:590-599 | every surviving result still has its own pending deletion timer |
| CodeBridge.FireDueTimers | proxy-server.js:597-599 | the timer loop fires exactly the due timers and leaves the table as their deletions leave it |
| CodeBridge.DueCountIsFirstLater | proxy-server.js:597-599 | the number of due timers is the index of the first timer still in the future |
| CodeBridge.PushCappedBounds | proxy-server.js:612-616 | a push keeps the queue at 10 entries at most, ends with the new entry, and drops exactly the oldest entry when the queue was full |
| CodeBridge.AddToChatQueue.Push | proxy-server.js:612-616 | a push appends the body stamped with the time, then drops the oldest entries beyond 10 |
| CodeBridge.AddToChatQueue.Poll | proxy-server.js:618-624 | an empty queue gives nothing; otherwise the oldest entry is returned and removed |
| CodeBridge.PostContextKeepsName | proxy-server.js:551-558 | a post without a name is skipped iff a named context is stored; a skip keeps the context; otherwise the body is stored with the time; a named document is never replaced by an unnamed one |
| StreamRelay.Relay.constructor | proxy-server.js:765-774 | the response opens with the mode frame, with an empty line buffer and answer |
| StreamRelay.Relay.OnData | proxy-server.js:781-821 | a stdout chunk is appended to the line buffer; the complete lines are handled in order and the partial last piece is kept |
| StreamRelay.PartialLine | proxy-server.js:784 | the carried-over piece has no line break |
| StreamRelay.LineBufferRoundTrip | proxy-server.js:782-786 | the complete lines with their breaks, then the carried piece, are exactly the buffered text: nothing is lost or reordered |
| StreamRelay.StepCases | proxy-server.js:787-819 | a blank line changes nothing; a non-empty text delta appends its text and emits one token frame; a `result` event with a truthy result replaces the answer unconditionally; unparsable and other lines change nothing |
| StreamRelay.ProcessExtendsFrames | proxy-server.js:786-820 | frames already written are never changed, only added to |
| StreamRelay.AnswerIsTokens | proxy-server.js:795-802 | until a `result` event replaces it, the answer grows by exactly the text of the token frames sent, in order |
| StreamRelay.StepAddsTokens | proxy-server.js:795-816 | a line that is not a replacing result adds to the answer exactly the text of the token frame it sends |
| StreamRelay.TracksTokensTransitive | proxy-server.js:786-820 | the answer-equals-tokens property composes over successive chunks |
| StreamRelay.CloseFrameCases | proxy-server.js:827-836 | an exit reports an error iff the exit code is not 0 and no answer text exists; otherwise the done frame carries the trimmed answer |
| StreamRelay.Relay.OnClose | proxy-server.js:827-840 | the close frame is written after all earlier frames and the response is marked done |
| StreamRelay.Relay.OnSpawnError | proxy-server.js:842-850 | a spawn failure writes the error frame `无法启动 claude CLI: <message>` and marks the response done |
| StreamRelay.Relay.OnClientClose | proxy-server.js:852-855 | the CLI is killed iff the response is still open and the CLI was not already killed |
| PromptComposer.AnyKeywordIn | proxy-server.js:93-98 | a keyword hits iff some keyword, lower-cased, occurs in the lower-cased message |
| PromptComposer.MatchSkills | proxy-server.js:80-117 | the loop returns exactly the skills picked by the selection rule, in skill order |
| PromptComposer.MatchedMembership | proxy-server.js:80-117 | a skill is matched iff it is one of the skills and the rule picks it |
| PromptComposer.MatchedIsSubsequence | proxy-server.js:80-117 | matching never reorders or repeats skills |
| PromptComposer.NullContextSelection | proxy-server.js:80-117 | without a WPS context, as `/chat` calls it, a skill is picked iff its modes allow the mode and it is always-on or a keyword hits |
| PromptComposer.BuildSystemPrompt | proxy-server.js:121-163 | the prompt is the dated preamble, then the mode skill's body when it has one, then each skill's body followed by a blank line |
| PromptComposer.AppendSkillSections | proxy-server.js:158-160 | the loop appends each skill's section to the head |
| PromptComposer.SkillBodyInOrder | proxy-server.js:158-160 | each skill's body appears right after the sections of the skills before it |
| PromptComposer.SkillSectionsPrefix | proxy-server.js:158-160 | the sections of a prefix of the skills are a prefix of all sections |
| PromptComposer.SelectModelAllowed | proxy-server.js:627-641 | the model used is always in the allow-list, and it is the requested one iff that one is allowed |
| PromptComposer.TextAttachments | proxy-server.js:678 | text attachments are those whose type is not `image` |
| PromptComposer.ImageAttachments | proxy-server.js:679 | image attachments are those whose type is `image` |
| PromptComposer.AttachmentsPartition | proxy-server.js:678-679 | every attachment is either text or image |
| PromptComposer.MimeSubtype | proxy-server.js:699-708 | the MIME subtype is one of the six table values (`jpg` and `jpeg` share `jpeg`), and `png` for an unknown extension |
| PromptComposer.ImageExtensionLastDot | proxy-server.js:698 | for every name, the extension is the text after the last `.`, lower-cased, and `png` when that text is empty |
| PromptComposer.ImageExtensionUpperCase | proxy-server.js:698-708 | for every name, an extension and its lower-case form give the same extension, so `a.JPG` is looked up as `jpg` |
| PromptComposer.ImageExtensionNoDot | proxy-server.js:698-708 | for every name without a dot, the name itself lower-cased is the extension, and `png` when the name is empty |
| PromptComposer.WritePreferenceLines | proxy-server.js:667-669 | the loop writes one `- key: value` line per preference |
| PromptComposer.PreferenceInOrder | proxy-server.js:667-669 | every preference's line appears after the lines of the preferences before it |
| PromptComposer.PreferenceLinesPrefix | proxy-server.js:667-669 | the lines of a prefix of the preferences are a prefix of all lines |
| PromptComposer.WriteTextBlocks | proxy-server.js:683-685 | the loop writes one `--- name ---` block per text attachment |
| PromptComposer.WriteImageLines | proxy-server.js:690-715 | the loop writes one line per image that has an upload path: path refused, read failed, or a data URL |
| PromptComposer.WriteAttachments | proxy-server.js:677-719 | the attachment part is the text blocks, then the image part, each only when non-empty |
| PromptComposer.WriteHistoryEntries | proxy-server.js:721-727 | the loop writes one `role: content` entry per message before the last |
| PromptComposer.HistoryInOrder | proxy-server.js:723-726 | each message's entry follows those of the messages before it |
| PromptComposer.HistoryEntriesPrefix | proxy-server.js:723-726 | the entries of a prefix of the messages are a prefix of all entries |
| PromptComposer.AssemblePrompt | proxy-server.js:661-730 | the prompt is the system prompt, then memory, context, attachments and history sections, then the final user turn |
| PromptComposer.FullPromptShape | proxy-server.js:661-730 | the prompt opens with the system prompt and a line break and closes with `用户: ` and the last message |
| PromptComposer.Chat | proxy-server.js:634-767 | the handler computes the request's plan: a refusal, or the prompt, the CLI arguments and the mode frame |
| PromptComposer.ChatRejectsInvalid | proxy-server.js:637-639 | a request is refused iff its messages are missing, not a list, or empty |
| PromptComposer.CliArgsShape | proxy-server.js:745-762 | the arguments carry `--max-turns` with the turn limit and `--model` with the model, and name WebSearch iff web search was requested (or the model is so named) |
| PromptComposer.ChatLaunchModel | proxy-server.js:641-762 | a launch names an allowed model, the requested one iff it is allowed, and enables WebSearch iff requested |
| WpsAddon.StripTrailingNewlines | wps-addon/main.js:516 | the result is the text without its trailing run of CR/LF characters |
| WpsAddon.RemoveNewlines | wps-addon/main.js:421 | no CR or LF remains |
| WpsAddon.SnapshotDocument | wps-addon/main.js:491-533 | no document gives no snapshot; otherwise the first min(count, 100) paragraph texts without trailing breaks ("" where unreadable), the name, the count (0 if unreadable), and the selection cut to 2000 characters; the loop's snapshot is `SnapshotOf` the document |
| WpsAddon.ComputeDiff | wps-addon/main.js:538-569 | the loop computes the diff of the two snapshots, or none when either is missing |
| WpsAddon.DiffBounds | wps-addon/main.js:560-568 | the change count is at most the longer length; the added paragraphs are the exact signed length change; at most the first 50 changes are returned; `hasMore` holds iff there are more than 50 |
| WpsAddon.DiffRecordsExactlyDifferences | wps-addon/main.js:547-558 | paragraph i+1 is recorded iff the texts at i differ, a missing paragraph reading as "" |
| WpsAddon.ChangesAreValid | wps-addon/main.js:551-556 | every change is a genuine difference carrying the first 300 characters of both sides |
| WpsAddon.ChangesAscending | wps-addon/main.js:547-558 | changes appear in strictly increasing paragraph order |
| WpsAddon.ChangesComplete | wps-addon/main.js:547-558 | every differing index is recorded |
| WpsAddon.ChangesUpToStep | wps-addon/main.js:547-558 | one more index extends the change list by at most its own change |
| WpsAddon.DiffOfMissing | wps-addon/main.js:539 | there is no diff iff a snapshot is missing |
| WpsAddon.DiffExample | wps-addon/main.js:538-569 | ["A","B"] against ["A","C","D"] gives two changes, +1 paragraph |
| WpsAddon.StyleLevel | wps-addon/main.js:410-414 | the level is -1 or 1 to 4 |
| WpsAddon.GetHeadingsOutline | wps-addon/main.js:395-430 | no outline when the count cannot be read; otherwise one entry per heading paragraph among the first min(count, 500) |
| WpsAddon.ScannedParagraphs | wps-addon/main.js:399-400 | the scan visits min(count, 500) paragraphs |
| WpsAddon.OutlineWellFormed | wps-addon/main.js:410-424 | every entry has level 1 to 4 and a non-empty text of at most 120 characters, without line breaks and not starting with white space; at most one entry per paragraph |
| WpsAddon.HeadingOfWellFormed | wps-addon/main.js:416-424 | the entry a heading paragraph contributes is well formed |
| WpsAddon.ExecutionText | wps-addon/main.js:601-605 | `undefined` becomes `执行成功`; any other value its string form |
| WpsAddon.PollAndExecute | wps-addon/main.js:571-599 | nothing is posted without a pending task; a throw posts the error message; a return posts the result text and exactly `DiffOf` of the snapshots of the document before and after the run (present iff both documents exist) |
| ClaudeClient.BuildContextString | src/api/claudeClient.ts:11-58 | the loops build exactly the context string of the context |
| ClaudeClient.WriteOutlineLines | src/api/claudeClient.ts:23-25 | the loop writes each heading's indented line |
| ClaudeClient.WriteIndentedLines | src/api/claudeClient.ts:35-52 | the loop writes each surrounding paragraph as an indented line |
| ClaudeClient.OutlineLineIndent | src/api/claudeClient.ts:24 | an outline line is 2(level-1) spaces, the heading and a line break |
| ClaudeClient.OutlineInOrder | src/api/claudeClient.ts:23-25 | heading k's line follows the lines of the headings before it |
| ClaudeClient.OutlineLinesPrefix | src/api/claudeClient.ts:23-25 | the lines of a prefix of the outline are a prefix of all lines |
| ClaudeClient.NoSelectionContext | src/api/claudeClient.ts:53-55 | without a selection, the context ends with the no-selection line |
| ClaudeClient.SelectionExcerpt | src/api/claudeClient.ts:42-45 | at most 1500 characters of the selection are quoted, and the truncation note follows iff the character count exceeds 1500 |
| ClaudeClient.TailStartsWithNote | src/api/claudeClient.ts:43-52 | the text after the excerpt starts with "  ..." iff the count exceeds 1500 |
| ClaudeClient.OutgoingMessages | src/api/claudeClient.ts:94-102 | the request's messages are the conversation so far, then the new user message |
| ClaudeClient.ConversationMembership | src/api/claudeClient.ts:95-100 | a wire message is sent iff some user or assistant message has its role and content; system notices are never sent |
| ClaudeClient.WireAttachments | src/api/claudeClient.ts:112-117 | one wire attachment per attachment |
| ClaudeClient.PayloadFields | src/api/claudeClient.ts:107-118 | model, mode, web search and attachments are sent iff set and non-empty; each attachment keeps name, content and path, with type defaulting to `text` |
| ClaudeClient.SendMessage | src/api/claudeClient.ts:87-180 | the posted payload is the built payload, and the callbacks are the outcome of the response under the given catch rule (`AsWritten` is the code, `Intended` the corrected rule) |
| ClaudeClient.ReadBody | src/api/claudeClient.ts:137-170 | the read loop leaves the reader as the chunks, processed in order under the given catch rule, leave it |
| ClaudeClient.ReadLines | src/api/claudeClient.ts:144-169 | the line loop handles each line in order and stops at an error the catch rule lets escape: as written any parse error but one reading exactly `Unexpected token`, as intended only an `error` event |
| ClaudeClient.ExactlyOneTerminal | src/api/claudeClient.ts:128-179 | under either catch rule, every response ends in exactly one `onComplete` or `onError`, last; a finished stream's text ends with all tokens in order |
| ClaudeClient.ErrorEventFails | src/api/claudeClient.ts:158-178 | an `error` event ends the stream with `onError` carrying its message; as written, one whose message is exactly `Unexpected token` is swallowed and changes nothing |
| ClaudeClient.DataLine | src/api/claudeClient.ts:145-148 | a `data: ` line is parsed from its trimmed payload |
| ClaudeClient.MalformedLineSkipped | src/api/claudeClient.ts:161-167 | as intended, a line that does not parse is skipped |
| ClaudeClient.MalformedLineAbortsAsWritten | src/api/claudeClient.ts:161-167 | as written, a malformed middle line makes the request fail after the first token, while the intended rule yields both tokens and completes |
| ClaudeClient.HandleThree | src/api/claudeClient.ts:144-169 | the three-line body, line by line, under both catch rules |
| ClaudeClient.HandleLinesStop | src/api/claudeClient.ts:166 | once an error has escaped, later lines change nothing |
| ClaudeClient.ReadChunksStop | src/api/claudeClient.ts:137-170 | once an error has escaped, later reads change nothing |
| ClaudeClient.ReadChunksTracked | src/api/claudeClient.ts:137-170 | while reading, no terminal callback has fired and the accumulated text ends with the streamed tokens in order |
| ClaudeClient.ExtractCodeBlocks | src/api/claudeClient.ts:182-192 | the loop returns, in order, every block the global search finds, with the default language and trimmed code |
| ClaudeClient.ScanAt | src/api/claudeClient.ts:188-190 | one loop turn keeps "blocks so far, then the rest of the search" equal to the whole search |
| ClaudeClient.WordRunEndSpec | src/api/claudeClient.ts:185 | the greedy `(\w+)?` stops at the first non-word character |
| ClaudeClient.CloseFromSpec | src/api/claudeClient.ts:185 | the lazy body stops at the first closing fence |
| ClaudeClient.MatchAt | src/api/claudeClient.ts:185 | a match spans at least the two fences and a line break |
| ClaudeClient.ExtractedCodeHasNoFence | src/api/claudeClient.ts:185-190 | no extracted code contains three backticks |
| ClaudeClient.ExtractWrittenBlocks | src/api/claudeClient.ts:185-190 | an answer written as prose and fenced blocks yields exactly those blocks, in order |
| ClaudeClient.FencedMatch | src/api/claudeClient.ts:185 | a written fence is matched whole and the search resumes after it |
| ClaudeClient.ScanShift | src/api/claudeClient.ts:188 | the search from inside `b` finds the same in `a + b` as in `b` |
| ClaudeClient.Snippets | src/api/claudeClient.ts:189 | one block per match |
| WpsAdapter.ReadContext | src/api/wpsAdapter.ts:18-45 | WPS counts as available iff the fetch succeeded with usable data |
| WpsAdapter.ReadContextFallback | src/api/wpsAdapter.ts:18-188 | unavailable gives the example document; available gives the document's own context, which names it or has a selection: a missing name is "", missing page, word and paragraph counts are 0, a missing outline is empty, and the selection and summary pass through |
| WpsAdapter.Adapter.GetWpsContext | src/api/wpsAdapter.ts:18-45 | the returned context and availability flag are the read of the fetch; the watch state is untouched |
| WpsAdapter.ExecuteCode | src/api/wpsAdapter.ts:55-88 | the poll loop gives the specified outcome and poll count; a failed submit throws without polling |
| WpsAdapter.WaitStopsAt | src/api/wpsAdapter.ts:69-85 | the first stopping round decides: the deadline times out after k polls, and a ready reply gives its result or error after k+1 |
| WpsAdapter.StillPollingIff | src/api/wpsAdapter.ts:69-85 | the call is still pending iff no given round stopped it |
| WpsAdapter.TimedOutIff | src/api/wpsAdapter.ts:69-87 | the call times out iff the clock reaches the deadline before any ready reply |
| WpsAdapter.PollBudget | src/api/wpsAdapter.ts:47-70 | with polls paced by the 300 ms sleep, at most 100 result polls are sent, and 101 rounds always settle the call |
| WpsAdapter.PollsWithin | src/api/wpsAdapter.ts:69-70 | paced rounds reach the deadline within the computed number of polls |
| WpsAdapter.WatchDelivery | src/api/wpsAdapter.ts:122-147 | the callback fires with the context iff the poll is outside the grace run and the key differs; the key is updated exactly then |
| WpsAdapter.WatchCounter | src/api/wpsAdapter.ts:122-134 | the grace counter counts missing selections after a present one and resets otherwise; a context with a selection is remembered |
| WpsAdapter.GraceRun | src/api/wpsAdapter.ts:109-130 | the first two polls without a selection are swallowed, and the third is reported unless its key repeats |
| WpsAdapter.NoRepeatedReport | src/api/wpsAdapter.ts:144-147 | a reported context is not reported again for the same key |
| WpsAdapter.Subscription.Poll | src/api/wpsAdapter.ts:117-152 | an inactive subscription does nothing; an active one performs one watch step, and a new tick is scheduled iff it was not cancelled meanwhile |
| WpsAdapter.Subscription.Unsubscribe | src/api/wpsAdapter.ts:155-157 | the subscription becomes inactive |
| SessionStore.FirstUser | src/api/sessionStore.ts:58 | the index of the first user message, or none |
| SessionStore.TitleShape | src/api/sessionStore.ts:57-62 | `新会话` iff there is no user message; otherwise one line of at most 31 characters: the trimmed text, or its first 30 characters and `…` |
| SessionStore.TitleIgnoresLaterMessages | src/api/sessionStore.ts:57-62 | later messages never change a title |
| SessionStore.TitleIsStable | src/api/sessionStore.ts:60-61 | a title is a fixed point of title generation |
| SessionStore.UpdateMemory | src/api/sessionStore.ts:64-75 | nothing is written when the read fails; otherwise the written preferences are the old ones with exactly the key set |
| ChatApp.ChatState.constructor | src/App.tsx:41-66 | the initial state: the given messages, an empty input, nothing attached or pinned, nothing loading or running, no missing-proxy banner, no sent text; the per-send text and first-token flag (`src/App.tsx:397-400`) start empty and unset |
| ChatApp.ChatState.Type | src/App.tsx:311-316 | typing sets the input to the typed text and changes no other state |
| ChatApp.ChatState.Send | src/App.tsx:356-392 | the trimmed text is sent unless it is empty or a reply loads (then nothing changes); the input, attachments and pin are cleared and the user bubble and an empty streaming reply are appended |
| ChatApp.DisplayContentShape | src/App.tsx:367-373 | the bubble starts with the text; equals it iff nothing is pinned or attached; the pin label follows it; the attachment list closes it |
| ChatApp.ChatState.Token | src/App.tsx:427-439 | the reply shows all text streamed so far; the first token hides the missing-proxy banner; every other field, including the attached files and the pinned selection, is unchanged |
| ChatApp.ChatState.Complete | src/App.tsx:441-517 | ask mode masks code and keeps no blocks; otherwise blocks are extracted and, in agent mode, run in order until one fails; every other field, including the attached files and the pinned selection, is unchanged |
| ChatApp.StripChangesIff | src/App.tsx:443-448 | the masked text differs from the answer iff the answer holds a code block |
| ChatApp.StripWritten | src/App.tsx:443-446 | masking replaces each written block, whole, by the placeholder and keeps all prose |
| ChatApp.SuggestSwitchIff | src/App.tsx:448-451 | the switch is suggested iff there was a code block or an action hint |
| ChatApp.HintNeedsRun | src/App.tsx:450 | `需要执行` anywhere suggests the switch |
| ChatApp.HintSwitchTo | src/App.tsx:450 | `Switch to Agent`, in any case, suggests the switch |
| ChatApp.ChatState.RunBlocks | src/App.tsx:488-517 | the run loop patches each settled block in order, stops at the first failure, and clears the applying flag unless a call is pending; every other field, including the attached files and the pinned selection, is unchanged |
| ChatApp.RunSteps | src/App.tsx:490-515 | the loop applies, in block order, the update of each settled block to the messages, stops after the first failure, and reports whether it is still waiting on a block |
| ChatApp.RunStopsAtFirstFailure | src/App.tsx:490-515 | updates go to a prefix of the blocks, in order; a failure is the last update; the run is pending only on an unsettled call |
| ChatApp.AgentRunFate | src/App.tsx:490-515 | blocks before the failure get their result and diff, the failing block gets the error, and later blocks are untouched |
| ChatApp.ApplyStepsPerBlock | src/App.tsx:493-512 | the run changes only the target message's blocks, each as its own updates leave it |
| ChatApp.BlockAfterDistinct | src/App.tsx:496-509 | with distinct ids, a block ends as its own update leaves it |
| ChatApp.ApplySteps | src/App.tsx:493-512 | the updates keep the number of messages and blocks |
| ChatApp.RunOrderStep | src/App.tsx:490-515 | one loop turn of the run order |
| ChatApp.ChatState.ApplyCode | src/App.tsx:219-254 | the message's unexecuted blocks, if any, are run like the agent run; every other field, including the attached files and the pinned selection, is unchanged |
| ChatApp.UnexecutedExact | src/App.tsx:221 | the blocks to run are exactly the unexecuted ones, in order |
| ChatApp.FindMessage | src/App.tsx:220 | the index of the first message with the id, or none |
| ChatApp.ChatState.CodeExecuted | src/App.tsx:201-214 | a block's own run report patches that block; every other field, including the attached files and the pinned selection, is unchanged |
| ChatApp.CodeExecutedTargets | src/App.tsx:201-214 | only blocks with that id in messages with that id change, and they take the reported result, error and diff |
| ChatApp.ChatState.Fail | src/App.tsx:519-540 | the reply becomes an error bubble and the missing-proxy banner shows; every other field, including the attached files and the pinned selection, is unchanged |
| ChatApp.ErrorContentShape | src/App.tsx:520-531 | an error bubble starts with the bold mark; proxy errors show the start-the-proxy help, others their message |
| ChatApp.ChatState.Settle | src/App.tsx:551-552 | the sent text is forgotten; every other field, including the attached files and the pinned selection, is unchanged |
| ChatApp.ChatState.Stop | src/App.tsx:557-579 | the streaming reply and its question are dropped and the sent text goes back into the input; every other field, including the attached files and the pinned selection, is unchanged |
| ChatApp.FirstStreaming | src/App.tsx:567 | the index of the first streaming message, or none |
| ChatApp.DropStreamingShape | src/App.tsx:566-571 | stop removes the first streaming reply and the message before it, keeping the rest in order; with none streaming nothing changes |
| ChatApp.WithoutPairSlices | src/App.tsx:570 | the filter removes exactly the two indices |
| ChatApp.StopUndoesSend | src/App.tsx:356-579 | stopping right after a send restores the messages and puts the trimmed text back in the input |
| ChatApp.ChatState.Insert | src/App.tsx:624-655 | non-empty pasted text replaces the selection and the caret lands after it; empty text changes nothing; every other field, including the attached files and the pinned selection, is unchanged |
| ChatApp.SpliceReplacesSelection | src/App.tsx:642-655 | the selection is replaced by the text, both sides are kept, and the caret lands right after the text |
| ChatApp.NewBlocks | src/App.tsx:470-475 | one unexecuted block per extracted snippet, with the generated ids |
| QuickActions.Collector.AddUnique | src/components/QuickActionCards.tsx:136-145 | the loop appends the not-yet-seen actions of the list |
| QuickActions.DedupDistinct | src/components/QuickActionCards.tsx:136-145 | kept actions have distinct captions not seen before and keep input order |
| QuickActions.DedupFirstWins | src/components/QuickActionCards.tsx:138-144 | no caption is lost, and the first action with a caption wins |
| QuickActions.DedupAppend | src/components/QuickActionCards.tsx:136-157 | adding two lists in turn is adding their concatenation |
| QuickActions.Appended | src/components/QuickActionCards.tsx:147-157 | successive `addUnique` calls compose |
| QuickActions.MergeActions | src/components/QuickActionCards.tsx:134-159 | the merged list is the deduplicated groups in the order the selection state picks |
| QuickActions.PreferredGroupsFirst | src/components/QuickActionCards.tsx:147-157 | with a selection the selection actions come first; without one the general ones |
| QuickActions.ViewShowsAll | src/components/QuickActionCards.tsx:163-188 | collapsed shows the first four and a card counts exactly the hidden rest; expanded shows all; the card exists iff there are more than four |
| QuickActions.CommandsOfScope | src/components/QuickActionCards.tsx:91-96 | no more actions than commands |
| QuickActions.CommandsOfScopeExact | src/components/QuickActionCards.tsx:91-96 | exactly the commands of the scope become actions |
| QuickActions.AdoptCommandsKeepsFallback | src/components/QuickActionCards.tsx:28-98 | a list keeps its fallback when no command has its scope, and is replaced otherwise |
| QuickActions.BuildModeTable | src/components/QuickActionCards.tsx:104-129 | the loop builds the mode table |
| QuickActions.ModeTableEntries | src/components/QuickActionCards.tsx:109-128 | a mode id has an entry iff some mode with that id has actions, taken from the last such mode |
| QuickActions.ScopedPartition | src/components/QuickActionCards.tsx:112-125 | each mode action goes to at most one side, and to exactly one when its scope is missing, general or selection |
| QuickActions.SelectionDebounce.Render | src/components/QuickActionCards.tsx:70-85 | a changed input cancels the old timer and arms a 1500 ms timer unless it is back at the stable value |
| QuickActions.SelectionDebounce.Tick | src/components/QuickActionCards.tsx:78-81 | the stable value changes iff a timer is due, and then it adopts the input |
| DiffPanel.FormatValShape | src/components/DiffPanel.tsx:64-67 | empty or missing text shows `(空)`; fitting text is shown as is; longer text shows its first 100 characters and `...` |
| DiffPanel.Rows | src/components/DiffPanel.tsx:36-46 | one row per change |
| DiffPanel.PanelShowsPrefix | src/components/DiffPanel.tsx:9-58 | collapsed shows the first min(8, n) changes and expanded all; the toggle exists iff n > 8; the not-shown note appears only collapsed and iff `hasMore` |
| DiffPanel.CountNoteFaithful | src/components/DiffPanel.tsx:24-25 | the header remark is absent iff the paragraph count is unchanged, and different changes read differently |
| CodeBlockCard.LineCountGrows | src/components/CodeBlock.tsx:9-29 | the line count is the number of newlines plus one; a block is collapsible iff it has 12+ newlines; growing code stays collapsible |
| CodeBlockCard.StatusAndButton | src/components/CodeBlock.tsx:94-149 | no status iff the run button shows; `执行失败` iff executed with an error; `已执行` iff executed without |
| CodeBlockCard.RunReportShape | src/components/CodeBlock.tsx:49-73 | a settled run reports for this block: success with result and diff, failure with empty result, the message and no diff |
| CodeBlockCard.Card.constructor | src/components/CodeBlock.tsx:26-31 | expanded iff streaming or not collapsible |
| CodeBlockCard.Card.Render | src/components/CodeBlock.tsx:35-40 | streaming that just ended collapses a collapsible block; nothing else changes expansion |
| CodeBlockCard.Card.Toggle | src/components/CodeBlock.tsx:107 | the arrow flips expansion |
| CodeBlockCard.Card.Expand | src/components/CodeBlock.tsx:179-185 | the "展开 N 行代码" prompt expands the code; the streaming and running flags are unchanged |
| CodeBlockCard.Card.HandleRun | src/components/CodeBlock.tsx:49-73 | the report is the run's report, and running stays set only while the call is pending |
| CodeBlockCard.StreamThenSettle | src/components/CodeBlock.tsx:30-40 | a long block is expanded while it streams and collapsed after |
| HistoryPanel.RelativeBuckets | src/components/HistoryPanel.tsx:96-103 | under a minute shows `刚刚`; minutes (1-59) and hours (1-23) print counts that read back as the elapsed whole units |
| HistoryPanel.Pad2ReadsBack | src/components/HistoryPanel.tsx:106 | hours and minutes print as two digits that read back as the number |
| HistoryPanel.SameYearClock | src/components/HistoryPanel.tsx:105-107 | an older stamp in the same year ends in `HH:MM` of the stamp |
| HistoryPanel.OtherYearDate | src/components/HistoryPanel.tsx:108 | another year shows no clock time and starts with the year |
| HistoryPanel.DeleteExactly | src/components/HistoryPanel.tsx:33-37 | deleting removes exactly the entries with that id |
| HistoryPanel.DeleteKeepsOrder | src/components/HistoryPanel.tsx:36 | the kept entries stay in order, and nothing changes when no entry has the id |

## Left out

- Network, HTTP framing and SSE transport are not modelled: responses, fetch failures and HTTP status are parameters. `express` routing, CORS and static file serving are left out too.
- `JSON.parse` and `JSON.stringify` are parameters or abstract values. The selection-watch key is modelled as the tuple of the fields it serialises.
- Clocks, `setTimeout`, `setInterval` and `sleep` become logical `now`/`elapsed` inputs. The SSE keepalive interval is not modelled.
- The CLI process (`spawn`, stdin, stderr) and the WPS host objects are inputs. The host's paragraph and selection reads are given as readable or unreadable values.
- `new Function(code)()` is not modelled: an execution is a parameter that either returns a value or throws.
- `readFileSync`, base64 encoding and the image upload are abstract. `isPathSafe` is a parameter.
- Skill, mode and command loading (YAML front matter, the file system) is not modelled; the loaded lists are inputs.
- `loadMemory` is an input. `getMemory`, `listSessions`, `loadSession`, `deleteSession`'s request, session autosave and restore, and `localStorage` are not modelled (I/O only).
- React rendering, the DOM, focus, scrolling and the clipboard API (including the copy button and the textarea fallback) are not modelled.
- Ids from `nanoid` are inputs. `ChatApp.ChatState.Complete` takes them as `ids`, one per extracted block.
- Each code run's fate is an input: returned, threw, timed out, or still polling. `StillPolling` stands for a call that has not settled, so the model does not interleave other events with a pending run.
- Thinking text, `thinkingMs`, the proxy's token counters and timing fields are not modelled. They carry no decision.
- `pollAddToChat` and the add-to-chat merge into the input (`src/App.tsx:106-132`) are not modelled. They pass the queue entry through.
- The missing-proxy polling timer is not modelled.
- The `skipCodeBridge` flag (`proxy-server.js:646-647`) is not modelled because nothing reads it.
- The abort signal is not modelled as such: an abort is a response that ends as aborted (`FetchAborted` or `AbortedMidway`), which completes with the text so far or the "（已中止生成）" notice.
- `Strings.ToLower` does not model Unicode case folding: it lowers ASCII letters only. Chinese text and the hint words are unaffected.
- `ClaudeClient.BuildContextString`: outline levels below 1 make `"  ".repeat` throw. The method requires levels of at least 1, which every outline from the add-in has (1 to 4).
- Floating point is not modelled. Counts are integers, and `Math.floor` of a non-negative quotient is Dafny's `/`. The font size (a number in WPS, possibly fractional such as 10.5) is kept as its printed text `UiTypes.Font.size`, which is all `src/api/claudeClient.ts:30` uses.
- Lengths count Unicode scalar values, while JavaScript counts UTF-16 code units. Outside the Basic Multilingual Plane (emoji, rare CJK) the two differ, and JavaScript's `substring`/`slice` can cut a surrogate pair. The caps affected are the session title's 30 (`SessionStore.TitleShape`), the diff panel's 100 (`DiffPanel.FormatValShape`), the heading outline's 120, the change texts' 300, the context excerpt's 1500 and the selection's 2000 characters, and the textarea offsets in `ChatApp.SpliceReplacesSelection`.
- StreamRelay.Relay.OnData: chunks are taken as already-decoded text. The proxy decodes each stdout chunk on its own (`proxy-server.js:782`), so a multi-byte UTF-8 character (every Chinese character is three bytes) split across two chunks becomes two U+FFFD characters; the model does not capture this corruption. The client decodes with `{ stream: true }` (`src/api/claudeClient.ts:140`) and is not affected.
- CodeBridge.Bridge.Lookup: the result table is a map, so it holds only reported ids. In the source it is a plain object (`proxy-server.js:566`), so `GET /code-result/constructor` answers `ready: true` through a prototype key, and a report with the id `__proto__` writes the prototype; the model does not capture either.
- PromptComposer.MimeSubtype: the extension table is a map, so it finds only the listed extensions. The JavaScript object lookup also finds prototype keys such as `constructor`, which the model does not capture for an image named, say, `x.constructor`.

## Findings

| source | as written | input that shows it | evidently intended | confidence | as-written member | corrected member |
|---|---|---|---|---|---|---|
| src/api/claudeClient.ts:161-167 | the catch rethrows every error whose message is not exactly `Unexpected token`, a message `JSON.parse` never produces | a body with a line `data: {` between two token lines: the parse error ("Unexpected end of JSON input") escapes, the request fails with `onError` after the first token, and the second token is lost | a line that does not parse is skipped and the stream goes on; only an `error` event fails the request | not executed | ClaudeClient.MalformedLineAbortsAsWritten | ClaudeClient.MalformedLineSkipped |
