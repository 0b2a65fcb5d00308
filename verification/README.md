# Mini-Agent turn core, in Dafny

A functional model of three parts of Mini-Agent, with proofs about them:

- **The model client** (`LLMClient` in `mini_agent/llm.py`). It converts the conversation into
  an Anthropic-Messages request body, checks the decoded reply for error envelopes (both the
  generic kind and MiniMax's `base_resp` kind), and parses the reply's content blocks into an
  `LLMResponse`. It also holds the deterministic offline stub, which answers keys starting with
  `TEST_` from a fixed rule table, and the flag that selects it.
- **The ACP bridge** (`mini_agent/acp/__init__.py`). It flattens prompt blocks to text,
  summarises tool arguments for display, keeps the session table, handles `prompt` and `cancel`,
  and runs the bounded turn loop `_run_turn`. The loop calls the model, streams thoughts,
  messages and tool progress, dispatches tool calls, and ends with `end_turn`, `refusal`,
  `cancelled` or `max_turn_requests`.
- **The note analyzer** (`RedNoteAnalyzer` in the rednote skill's `analyzer.py`). It finds
  emotion words, classifies titles, scores title "heat", judges sentiment, counts paragraphs and
  generates tags.

Everything outside the model becomes a parameter: the network reply of each step, each tool's
outcome, a cancel arriving during the model call or during tool execution, and Python's `repr`
of an argument value. All of these live in the `World` record of `acp.dfy`. Each is a total
function of the step index (and of the call index for tools), so a turn is a pure function of
its `World`.

Files and modules:

| file | module | contents |
|---|---|---|
| `wrappers.dfy` | `Wrappers` | `Option`, `Result` |
| `strings.dfy` | `Strings` | the Python string operations used: `in`, `startswith`, `join`, `split`, `count`, ASCII `lower`/`upper`, `strip`, `str(int)` |
| `schema.dfy` | `Schema` | messages, tool calls, responses, the pairing invariant |
| `wire.dfy` | `Wire` | request body building and response parsing |
| `llm_client.dfy` | `LlmClient` | envelope check, offline flag, offline stub, `generate` |
| `acp.dfy` | `Acp` | `acp_to_text`, `_format_tool_args`, sessions, one loop step, the turn, `prompt`, `cancel` |
| `acp_laws.dfy` | `AcpLaws` | properties of the bridge and of whole turns |
| `acp_scenarios.dfy` | `AcpScenarios` | whole turns against the offline stub |
| `analyzer.dfy` | `Analyzer` | the note analyzer |
| `analyzer_laws.dfy` | `AnalyzerLaws` | properties of the analyzer |

Consequences of the code as written that a reader might not expect:

- The offline stub's calculator rule (`mini_agent/llm.py:238-244`) has no "calculator result
  already present" guard, unlike the `write_file` and `bash` rules. It therefore answers the
  calculator request with a new calculator call on every step, and a turn on that request never
  reaches `end_turn`. `AcpScenarios.CalculatorTurn` proves that the turn uses its whole step
  bound and ends with `max_turn_requests`.

- `_calculate_heat_score` can never produce a score below 3, so its lower clamp at 1 never
  applies (`AnalyzerLaws.HeatBounds`).
- `generate_tags` can never produce more than 10 tags, so its `[:10]` never cuts anything
  (`AnalyzerLaws.TagsNeverTruncated`).
- The text "不推荐" contains the positive word "推荐" as well as the negative word "不推荐".
  Its sentiment is therefore neutral with two emotion words (`AnalyzerLaws.NotRecommendedIsNeutral`).

## Model

| member | source | states |
|---|---|---|
| LlmClient.CheckEnvelope | mini_agent/llm.py:66-86 | a decoded reply is rejected exactly when it is an error envelope: `type` is "error", or a `base_resp` status code other than 0, 1000 or missing; an accepted reply passes through unchanged |
| LlmClient.EnvelopeMessages | mini_agent/llm.py:67-84 | the generic envelope wins over a status envelope; its message starts "API Error ("; a status envelope's message starts "MiniMax API Error (code "; code 1008 ends with the balance hint and 2013 with the unsupported-model hint naming the model |
| LlmClient.StatusErrorShape | mini_agent/llm.py:78-84 | the status error text starts with the MiniMax prefix and carries the hint that matches its code |
| LlmClient.GenericErrorShape | mini_agent/llm.py:67-70 | the generic error text starts with "API Error (" |
| LlmClient.EnvelopeRaisesBeforeParsing | mini_agent/llm.py:64-86 | an error envelope raises whatever content blocks and stop reason it carries; the content is never parsed |
| LlmClient.OfflineSwitch | mini_agent/llm.py:38 | an explicit offline flag decides by itself; without one, a key is offline exactly when its first five characters upper-case to "TEST_", so every letter-case spelling of that prefix is offline, and (under ASCII case mapping) keys shorter than 5 or not starting with t/T are online |
| LlmClient.FreshClientFirstCall | mini_agent/llm.py:33-39 | a new client's offline flag is the switch's verdict and its stub counter starts at zero, so its first stub call is named "stub-1" |
| LlmClient.FakeResponse | mini_agent/llm.py:211-268 | the stub issues at most one call; it advances the counter by exactly the number of calls, names each call "stub-" plus the advanced counter, and never returns an empty thinking or empty call list |
| LlmClient.StubIdInjective | mini_agent/llm.py:224-227 | distinct counter values give distinct stub call ids |
| Strings.NatToStringRoundTrip | mini_agent/llm.py:227 | the decimal rendering of the counter reads back as the same number |
| LlmClient.StubGreets | mini_agent/llm.py:233-236 | a last user text mentioning "hello, mini agent" in any letter case gets the fixed greeting and no call, whatever the tools |
| LlmClient.StubGreetsOnSay | mini_agent/llm.py:235 | the "say 'hello, mini agent!'" test is subsumed by the shorter one, and it also gets the greeting |
| LlmClient.StubCalculates | mini_agent/llm.py:238-244 | with tools, the calculator request gets one calculator call with operation add, a 123 and b 456, numbered by the advanced counter |
| LlmClient.StubWritesFileOnce | mini_agent/llm.py:246-254 | the file request gets a write_file call until a write_file tool result is in the conversation, and the closing text from then on |
| LlmClient.Generate | mini_agent/llm.py:88-209 | offline: the stub answers and no request is sent; online: the request is the built payload, the client is unchanged, the call fails exactly on a transport failure or an error envelope, and a success is normalized; only the stub counter ever changes |
| LlmClient.GenerateResult | mini_agent/llm.py:94-209 | `Generate`'s answer: offline, exactly the stub's response and counter whatever the reply; online, the transport error, else the envelope's error, else `ParseContent` of the reply's content blocks and stop reason |
| Wire.PayloadSystemAndTools | mini_agent/llm.py:96-165 | `BuildPayload`: the request's system field is the last system message's content, absent when there is none or it is empty; the tools key is present exactly when the tool list is non-empty; the messages are the converted conversation |
| Wire.LastSystemSpec | mini_agent/llm.py:100-103 | there is no system text exactly when there is no system message; otherwise it is the content of the last one |
| Wire.ApiMessagesCount | mini_agent/llm.py:100-150 | every non-system message becomes exactly one API message, and system messages become none |
| Wire.SerializeParseRoundTrip | mini_agent/llm.py:108-209 | an assistant message with thinking or calls is sent as typed blocks that parse back to its content, its thinking and its calls in order |
| Wire.ResponseRoundTrip | mini_agent/llm.py:105-209 | recording a normalized response as an assistant message, sending it, and parsing the echoed blocks gives back the same response |
| Wire.ParseContentNormalized | mini_agent/llm.py:177-209 | `ParseContent`: a parsed response never holds empty thinking or an empty call list, and its finish reason defaults to "stop" |
| Wire.TextsAppend | mini_agent/llm.py:186-188 | text blocks concatenate in order across any split of the block list |
| Wire.ThinkingsAppend | mini_agent/llm.py:189-190 | thinking blocks concatenate in order across any split of the block list |
| Wire.CallsAppend | mini_agent/llm.py:191-202 | tool_use blocks become calls in order across any split of the block list |
| Wire.ToolUseBlocksParse | mini_agent/llm.py:120-202 | the tool_use blocks of a call list parse back to exactly that call list, with no text or thinking |
| Wire.IssuedCallIsSent | mini_agent/llm.py:120-132 | every call an assistant message issued appears as a tool_use block with its id in the request |
| Wire.AssistantBlocksHaveNoResult | mini_agent/llm.py:108-132 | an assistant's blocks never contain a tool_result |
| Wire.RequestPairing | mini_agent/llm.py:100-150 | if every tool message answers an earlier call, every tool_result in the request answers a tool_use sent before it |
| Schema.TextOrNone | mini_agent/llm.py:206 | thinking is absent exactly when its text is empty, and non-empty text is kept as is |
| Schema.CallsOrNone | mini_agent/llm.py:207 | the call list is absent exactly when it is empty, and a non-empty one is kept as is |
| AcpLaws.AcpToTextSplits | mini_agent/acp/__init__.py:43-44 | when no block text holds a newline, splitting the prompt text at newlines gives back each block's text, one per block |
| AcpLaws.AcpToTextEdges | mini_agent/acp/__init__.py:43-44 | one text block passes through unchanged; a block without text contributes ""; no blocks give "" |
| Acp.FormatToolArgs | mini_agent/acp/__init__.py:47-59 | the loop computes the summary of the first three arguments, and the summary is empty exactly when there are no arguments |
| AcpLaws.ClipBound | mini_agent/acp/__init__.py:53-55 | a rendered value is at most 48 characters; a short one is kept whole, and a long one is its first 45 characters followed by "..." |
| AcpLaws.ArgPartShape | mini_agent/acp/__init__.py:56 | each shown argument starts with its key and "=", and is bounded by the key length plus 49 |
| AcpLaws.SummaryIgnoresLaterArgs | mini_agent/acp/__init__.py:57-58 | arguments after the third never change the summary |
| AcpLaws.SummaryShowsFirstArgs | mini_agent/acp/__init__.py:51-59 | with one to three arguments, every argument is shown in order, and the first one leads |
| AcpLaws.LabelIsCallForm | mini_agent/acp/__init__.py:168 | both branches of the title expression give `name(summary)` |
| AcpLaws.DispatchReports | mini_agent/acp/__init__.py:170-179 | `Dispatch`: a call completes exactly when the tool exists and returned success, with the result's content; an unknown tool gives "Unknown tool: " and the name, a raised error "Tool error: " and its message, a failed result its error text, or "Tool execution failed" when that is empty or missing; nothing propagates |
| AcpLaws.CallEffectsShape | mini_agent/acp/__init__.py:165-181 | each call streams a start update with its id and title, then a progress update with the dispatch status and text, and records one tool message with its id, name and text |
| AcpLaws.RunCallsMessages | mini_agent/acp/__init__.py:165-181 | a batch of calls records one tool message per call, in call order |
| AcpLaws.RunCallsUpdates | mini_agent/acp/__init__.py:165-180 | a batch of calls streams two updates per call, in call order: start, then progress |
| Acp.RunTurn | mini_agent/acp/__init__.py:144-182 | a turn only appends to the conversation and to the update stream; it runs at most the remaining number of steps; `max_turn_requests` means it used all of them, and any other reason means it ran at least one |
| AcpLaws.StepNeverExhausts | mini_agent/acp/__init__.py:146-181 | a single step never ends with `max_turn_requests`, and a step that starts cancelled stops at once with nothing changed |
| AcpLaws.StepRefusal | mini_agent/acp/__init__.py:150-155 | a refusal comes only from a failed online model call; it leaves the conversation unchanged and streams exactly one message starting with "Error: " |
| AcpLaws.StepCancelled | mini_agent/acp/__init__.py:147-157 | a cancelled step records nothing and streams nothing, and leaves the flag set |
| AcpLaws.StepEndTurn | mini_agent/acp/__init__.py:158-164 | a normal end records exactly one assistant message, and that message has no tool calls |
| AcpLaws.StepContinues | mini_agent/acp/__init__.py:162-181 | a continuing step records one assistant message with calls, followed by one tool message per call that answers that call's id and name |
| AcpLaws.StepOutcome | mini_agent/acp/__init__.py:147-181 | `RunStep` from an uncancelled state, by what the model call did: a failure is refused with one "Error: " message and nothing recorded; a success overtaken by a cancel is cancelled with nothing recorded or streamed; a success without calls ends the turn with the response recorded and streamed; a success with calls continues with the flag a cancel during the tools left; offline, a step is never refused |
| AcpLaws.ResponseUpdatesOrder | mini_agent/acp/__init__.py:158-161 | a response streams its thought first when it has thinking and its message last when it has text, and nothing else |
| AcpLaws.StepUpdates | mini_agent/acp/__init__.py:158-181 | a continuing step streams the response's thought and message, then the start and progress updates of its calls in order, and records the assistant message, then the tool messages |
| AcpLaws.TurnContinues | mini_agent/acp/__init__.py:146-181 | a turn whose first step continues is that step followed by the rest of the turn, plus one step |
| AcpLaws.TurnExhausts | mini_agent/acp/__init__.py:146-182 | if every step keeps a step-indexed invariant and continues, the turn ends with `max_turn_requests` after all remaining steps, in a state satisfying the invariant |
| AcpLaws.StepWellPaired | mini_agent/acp/__init__.py:162-181 | a step keeps every tool message answering a call issued by an earlier assistant message |
| AcpLaws.TurnWellPaired | mini_agent/acp/__init__.py:144-182 | a whole turn keeps the same pairing invariant |
| AcpLaws.PromptKeepsPairing | mini_agent/acp/__init__.py:129-137 | prompting a paired session keeps it paired, so every later request body answers each tool_result with a tool_use sent before it |
| AcpLaws.AssistantCountAppend | mini_agent/acp/__init__.py:162 | assistant messages count additively over concatenated conversations |
| AcpLaws.NoAssistants | mini_agent/acp/__init__.py:181 | a run of tool messages adds no assistant message |
| AcpLaws.StepAssistantCount | mini_agent/acp/__init__.py:150-162 | a step records one assistant message when its model call succeeds and is not cancelled, and none otherwise |
| AcpLaws.TurnAssistantCount | mini_agent/acp/__init__.py:146-182 | a turn records one assistant message per step, except that a refused or cancelled last step records none |
| AcpLaws.RecordedReplays | mini_agent/acp/__init__.py:162 | a recorded assistant message, sent back to the model, parses to the response it came from |
| AcpLaws.StepRecords | mini_agent/acp/__init__.py:162-181 | every assistant message a step adds is the record of a normalized response |
| AcpLaws.TurnRecords | mini_agent/acp/__init__.py:144-182 | every assistant message a turn adds is the record of a normalized response |
| Acp.Prompt | mini_agent/acp/__init__.py:129-137 | an unknown session is refused with nothing changed; otherwise the session's conversation grows by the prompt text as a user message followed by the turn's messages, its tools and bound are kept, and no other session changes |
| AcpLaws.PromptRunsTurn | mini_agent/acp/__init__.py:129-137 | a prompt to a known session runs one turn from its conversation plus the prompt text, with no updates yet and the cancel flag cleared, and returns that turn's stop reason and updates |
| AcpLaws.PromptIgnoresStaleCancel | mini_agent/acp/__init__.py:133 | whatever the session's cancel flag before a prompt, the prompt's result is the same |
| AcpLaws.CancelThenPrompt | mini_agent/acp/__init__.py:129-142 | a cancel before a prompt, for a known or unknown session, changes nothing about the prompt's result |
| Acp.Cancel | mini_agent/acp/__init__.py:139-142 | a known session gets its cancel flag set and nothing else changes; an unknown id changes nothing |
| AcpScenarios.LastUserTextSkips | mini_agent/llm.py:214-218 | appending non-user messages does not change the last user text |
| AcpScenarios.LastUserTextOfPrompt | mini_agent/acp/__init__.py:134-135 | after a prompt, the last user text is the prompt text |
| AcpScenarios.StepKeepsUserText | mini_agent/acp/__init__.py:162-181 | a continuing step does not change the last user text the stub reads |
| AcpScenarios.HelloTurn | mini_agent/acp/__init__.py:144-164 | offline, a greeting ends the turn in one step, streaming and recording exactly the fixed reply |
| AcpScenarios.PromptSaysHello | mini_agent/acp/__init__.py:129-137 | the prompt "Say 'Hello, Mini Agent!'" to an offline session ends with `end_turn`, streams only the greeting, and appends the prompt and the greeting |
| AcpScenarios.CalculatorStep | mini_agent/llm.py:238-244 | offline, each step on the calculator request continues with a new calculator call and advances the counter by one |
| AcpScenarios.CalculatorTurn | mini_agent/acp/__init__.py:146-182 | offline, the calculator request with nothing cancelled ends with `max_turn_requests` after every step, one stub call per step |
| AcpScenarios.WriteFileFirstStep | mini_agent/llm.py:246-254 | offline, the first step on the file request continues after one stub call, keeps the request as the last user text and leaves a write_file tool result in the conversation |
| AcpScenarios.WriteFileClosingStep | mini_agent/llm.py:246-248 | offline, once a write_file tool result is in, a step on the file request ends the turn, appending only the closing text and leaving the stub counter alone |
| AcpScenarios.WriteFileTurn | mini_agent/llm.py:246-254 | offline, the file request ends with `end_turn` after two steps, whose last message is the closing text, using one stub call |
| Analyzer.MatchCount | mini_agent/skills/rednote-compilation-skill/scripts/analyzer.py:112-114 | a category's count never exceeds its number of words |
| AnalyzerLaws.FindInAppend | mini_agent/skills/rednote-compilation-skill/scripts/analyzer.py:43-47 | finding over concatenated lexicons is finding over each, in order |
| AnalyzerLaws.EmotionWordsByCategory | mini_agent/skills/rednote-compilation-skill/scripts/analyzer.py:40-47 | the found words come positive first, then negative, then neutral, each category in lexicon order |
| AnalyzerLaws.FindInSound | mini_agent/skills/rednote-compilation-skill/scripts/analyzer.py:44-46 | every reported word is the tagged form of an entry whose word occurs in the text |
| AnalyzerLaws.FindInComplete | mini_agent/skills/rednote-compilation-skill/scripts/analyzer.py:44-46 | every entry whose word occurs in the text is reported |
| AnalyzerLaws.EmotionWordsExact | mini_agent/skills/rednote-compilation-skill/scripts/analyzer.py:40-47 | `FindEmotionWords`: a tagged word is reported if and only if its lexicon word occurs in the text |
| AnalyzerLaws.FindInCount | mini_agent/skills/rednote-compilation-skill/scripts/analyzer.py:112-114 | one category reports exactly as many words as the sentiment count for it |
| AnalyzerLaws.EmotionWordsCount | mini_agent/skills/rednote-compilation-skill/scripts/analyzer.py:110-125 | the sentiment's word count equals the number of emotion words found, and is at most 25 |
| AnalyzerLaws.FirstMatchPicksEarliest | mini_agent/skills/rednote-compilation-skill/scripts/analyzer.py:49-62 | a first-match classifier returns the label of the earliest rule that holds, and the plain type when none holds |
| AnalyzerLaws.ClassifyIsFirstMatch | mini_agent/skills/rednote-compilation-skill/scripts/analyzer.py:49-62 | `ClassifyTitle`: the title classifier is the first-match classifier over the numbered, question, comparison, recommendation and review rules, in that priority |
| AnalyzerLaws.TitleTypeNamesDistinct | mini_agent/skills/rednote-compilation-skill/scripts/analyzer.py:52-62 | the six returned labels are pairwise distinct |
| AnalyzerLaws.NumberedBeatsQuestion | mini_agent/skills/rednote-compilation-skill/scripts/analyzer.py:51-54 | a title with a digit and a counting word is numbered even when it also asks a question; the question alone gives the question type |
| Analyzer.HeatScore | mini_agent/skills/rednote-compilation-skill/scripts/analyzer.py:72-97 | the heat score lies between 1 and 10 |
| AnalyzerLaws.HeatBounds | mini_agent/skills/rednote-compilation-skill/scripts/analyzer.py:74-97 | the unclamped score lies in [3, 11], so only the upper clamp ever applies |
| AnalyzerLaws.LengthBonusCases | mini_agent/skills/rednote-compilation-skill/scripts/analyzer.py:76-83 | the length adds 2 for 8 to 15 characters, takes 1 below 8, takes 2 above 20, and adds nothing for 16 to 20 |
| AnalyzerLaws.EmotionContributionCapped | mini_agent/skills/rednote-compilation-skill/scripts/analyzer.py:89-91 | between titles that agree on length, digits and question words, more emotion words never score lower, and any two with at least two emotion words each score the same |
| Analyzer.AnalyzeSentiment | mini_agent/skills/rednote-compilation-skill/scripts/analyzer.py:110-125 | the count is the sum of the three category counts; positive exactly when positives beat both other counts; negative exactly when negatives beat positives; no words means neutral |
| AnalyzerLaws.SentimentLabels | mini_agent/skills/rednote-compilation-skill/scripts/analyzer.py:117-125 | the reported tendency is "积极" exactly when positives beat both other counts, "消极" exactly when negatives beat positives, and "中性" otherwise |
| AnalyzerLaws.NotRecommendedIsNeutral | mini_agent/skills/rednote-compilation-skill/scripts/analyzer.py:110-125 | "不推荐" counts as one positive and one negative word, so it is neutral with two words |
| AnalyzerLaws.NotRecommendedPositive | mini_agent/skills/rednote-compilation-skill/scripts/analyzer.py:112 | "不推荐" holds exactly one positive word |
| AnalyzerLaws.NotRecommendedNegative | mini_agent/skills/rednote-compilation-skill/scripts/analyzer.py:113 | "不推荐" holds exactly one negative word |
| AnalyzerLaws.NotRecommendedNoNeutral | mini_agent/skills/rednote-compilation-skill/scripts/analyzer.py:114 | "不推荐" holds no neutral word |
| AnalyzerLaws.MatchCountNone | mini_agent/skills/rednote-compilation-skill/scripts/analyzer.py:112-114 | when no word occurs, the count is 0 |
| AnalyzerLaws.MatchCountExactly | mini_agent/skills/rednote-compilation-skill/scripts/analyzer.py:112-114 | when exactly one word occurs, the count is 1 |
| AnalyzerLaws.ParagraphsAreLines | mini_agent/skills/rednote-compilation-skill/scripts/analyzer.py:103 | the paragraph count is the number of newline-separated pieces, so empty content has one paragraph |
| Analyzer.GenerateTags | mini_agent/skills/rednote-compilation-skill/scripts/analyzer.py:177-216 | at most 10 tags, always led by the four generic tags |
| AnalyzerLaws.TagsNeverTruncated | mini_agent/skills/rednote-compilation-skill/scripts/analyzer.py:177-216 | at most 10 tags exist before the cut, so the cut never removes any |
| AnalyzerLaws.TagsShape | mini_agent/skills/rednote-compilation-skill/scripts/analyzer.py:179-216 | the tags are the generic tags, then at most one group's four tags, then the digit tag exactly when the title has a digit, then the emotion tag exactly when the title has an emotion word |
| AnalyzerLaws.FirstGroupSpec | mini_agent/skills/rednote-compilation-skill/scripts/analyzer.py:187-205 | no group is chosen exactly when no group has a keyword in the text; otherwise the chosen group is the earliest one in the chain with a keyword in the text |
| AnalyzerLaws.LowerKeepsWord | mini_agent/skills/rednote-compilation-skill/scripts/analyzer.py:185 | lower-casing a text does not change whether a word without ASCII letters occurs in it |
| AnalyzerLaws.GroupIgnoresCase | mini_agent/skills/rednote-compilation-skill/scripts/analyzer.py:185-205 | because every group keyword is CJK, lower-casing never changes which group is chosen |
| AnalyzerLaws.TagsGroup | mini_agent/skills/rednote-compilation-skill/scripts/analyzer.py:185-205 | the group tags follow the earliest group with a keyword in the content and title as written; without such a group there are at most six tags |

## Left out

- The HTTP request itself (`mini_agent/llm.py:53-64`). Its outcome is the `Reply` parameter of `Generate`: a transport failure or a decoded body.
- The retry wrapper (`mini_agent/llm.py:167-175`). The retry module is not part of this model. With retries on or off, `Reply` stands for the final attempt's outcome, and the retry callback is not modelled.
- JSON encoding of the request. The body is the `Payload` datatype, and each tool schema is reduced to its name.
- LlmClient.StatusErrorShape: the status code is modelled as an optional integer. A non-integer status code, which Python would compare and print as is, is not modelled.
- Wire.ParseContent: an explicit JSON `null` for a block's `text` or `thinking` is treated like a missing key (empty text). The code would raise a `TypeError` on `+=` there.
- Wire.ParseContent: an explicit JSON `null` `stop_reason` gives the finish reason `None` in Python, because the `"stop"` default of `mini_agent/llm.py:179` applies only to a missing key. The model gives "stop".
- Wire.Calls: a tool_use block is assumed to carry a string `id` and `name`. Python would accept a missing or non-string one and store `None`.
- Wire.Calls: an explicit JSON `null` `input` gives the arguments `None` in Python (`mini_agent/llm.py:199`). The model gives the empty mapping.
- LlmClient.Generate: an explicit JSON `null` `content` makes Python raise while iterating over it (`mini_agent/llm.py:178-186`). The model's reply always holds a block list, empty when the key is missing.
- LlmClient.CheckEnvelope: an explicit JSON `null` `base_resp` makes Python raise on `.get` (`mini_agent/llm.py:74-75`). The model treats it like a missing key and accepts the reply.
- LlmClient.CheckEnvelope: for an error envelope with an explicit JSON `null` `error`, Python raises an `AttributeError` instead of the "API Error" exception (`mini_agent/llm.py:68-69`). The model fails with the "API Error" text. Both fail, with different messages.
- Message content is modelled as a string. The stub's `isinstance(msg.content, str)` test therefore always holds.
- `lower()` and `upper()` are modelled as ASCII case mapping. This matters in three places:
  - The offline flag: Python's `upper()` also maps U+017F to ASCII `S`, so a key such as "teſt_x" is offline in Python but online here.
  - The offline flag, further: Python's `upper()` can also lengthen a string. The ligatures U+FB05 and U+FB06 become "ST", so the four-character key "teﬆ_" upper-cases to "TEST_" and is offline in Python.
  - Other non-ASCII mappings cannot affect the flag:
    - "ß" becomes "SS", and "TEST_" holds no "SS".
    - U+0131 becomes `I`, and "TEST_" holds no `I`.
    - U+1E97 becomes `T` followed by U+0308, which can be neither `E` nor `_`.
  - The stub patterns are all ASCII. Outside ASCII, only two characters lower-case to something containing an ASCII letter:
    - U+212A (Kelvin sign) becomes `k`, and no pattern holds a `k`.
    - U+0130 becomes `i` followed by U+0307. Every `i` in a pattern is followed by another pattern character, and U+0307 is not one, so that `i` can never be part of a match.
    - So the patterns occur in Python's lower-cased text exactly when they occur in the ASCII lower-cased text.
  - The tag keywords: they are all CJK. `AnalyzerLaws.GroupIgnoresCase` shows that lower-casing does not affect them.
- LlmClient.OfflineSwitch: its "exactly when the first five characters upper-case to TEST_" clause, and the "shorter than 5" and "not starting with t/T" clauses, hold for ASCII case mapping. Under Python's full `upper()`, the keys listed above that use U+017F, U+FB05 or U+FB06 are offline as well. These are the only non-ASCII characters that can change the flag.
- Python's `repr` of an argument value is the `World.repr` parameter.
- Tool execution (`tool.execute`) is the `World.toolOutcome` parameter, which is either a returned `ToolResult` or a raised message.
- Concurrency: `async` scheduling is not modelled. A `cancel` arriving while a turn runs can be observed at two places, and the model has one flag for each:
  - during the model call (`World.cancelDuringCall`), seen by the check after the call;
  - during tool execution (`World.cancelDuringTools`), seen at the top of the next step.
- Streaming is modelled as the list of updates a turn produces. The `sessionUpdate` transport (`_send`) is not modelled.
- Session creation (`newSession`), `initialize`, MCP server connection, system prompt loading, `run_acp_server` and logging are not modelled. They set up sessions but take no part in a turn.
- In the analyzer, Python's `\d` is modelled as the Unicode 15.0 decimal-digit category (`Analyzer.IsDecimalDigit`).
- Left out of the analyzer model:
  - `analyze_title` and `analyze_content` are not modelled as dictionaries. Their paragraph count, sentiment, classification, heat score and emotion words are each modelled separately.
  - The regular-expression extractors `_extract_keywords`, `_extract_key_info` and `_check_interaction_elements` are not modelled.
  - The command-line `main` is not modelled.
  - `title_generator.py` is not part of this model.
- `generate_tags` takes a `category` argument and never uses it. `Analyzer.GenerateTags` takes it and ignores it too.
