# Hybrid MCP agent: a verified model of its reasoning core

This project is a Dafny model of the reasoning core of a console agent. The agent answers user questions by calling a language model and a set of MCP tool servers. The model covers the text and JSON handling around each model call, plus the loop that decides when a turn ends:

- **Input guard and output contract** (`heuristics.py`).
  - The input guard checks length, URL length, deny-listed words and e-mail provider typos. It keeps an error list and a repaired text.
  - The output contract finds a fenced JSON block and decodes it. It backfills the required fields of the `tool_call`, `perception` and `plan` schemas, then replaces null or blank object values throughout the tree.
- **Model adapter** (`modules/model_manager.py`). It runs the guard, then the backend, then the contract. A repaired dict is serialised back to text.
- **History retriever** (`modules/history_manager.py`).
  - A class with a per-query cache. Every failure has an empty-list outcome, and only successful searches are cached. A `matches` value that is a string counts as a success: it is sliced like a list and cached. Iterating it yields one-character strings, so the model holds it as those, and rendering it then fails.
  - A renderer turns past conversations into prompt text.
  - A process-wide registry holds the single manager.
- **Memory search server** (`modules/mcp_server_memory.py`).
  - A conjunctive term filter with a five-field projection.
  - A stable sort, newest timestamp first.
  - A greedy 10000-word budget with summary counts.
  - The rule for flattening loaded JSON files.
  - The conversation-flow projection, and the selection of the latest session with `run_metadata` items filtered out.
- **Perception stage** (`modules/perception.py`): the server catalogue, three ways to build the prompt, server selection, and the all-servers fallback.
- **Planning stage** (`modules/decision.py`).
  - Memory text; history only at step 1.
  - Stripping code fences.
  - The "some line starts a `solve` definition" acceptance test and the two fixed `FINAL_ANSWER:` fallbacks.
- **Console driver** (`agent.py`).
  - The `exit` and `new` commands.
  - Capture of the session id.
  - Classification of each result as final, continue, raw or unexpected, and re-entry on "further processing".

Python exceptions are modelled as `Err` values of a `Result` type. The callers' `try` blocks then become explicit fallbacks.

These arrive as function-typed parameters:
- the language-model backend;
- the MCP dispatcher, with its outcomes: returned, timed out, raised;
- the regex scanners, as the URL and address lists they return;
- `json.loads` with its quote repair, and `json.dumps`;
- `str.format` on a prompt template;
- the fenced-block extractor of the missing `modules/tools.py`;
- timestamp formatting;
- the agent loop, and the agent context's choice of session id.

Shared helpers:
- `Wrappers`: `Option`, `Result`, and `Collect` over a list of results.
- `Text`: Python's `strip`, `lower`, `find`, `in`, `split`, `join` and `replace`. Whitespace is Python's full `str.isspace` set; upper-to-lower case mapping covers ASCII letters only.
- `JsonData`: a JSON tree whose objects are ordered key lists with dict semantics, plus `repr`/`str` of values. A string's `repr` picks its quote as Python does. It escapes the quote, the backslash, `\t`, `\n`, `\r` and the modelled non-printable characters as `\xNN` or `\uNNNN`.

Each core file is modelled in the form it takes:
- Code that updates state in place becomes a class or a method. This covers the history manager's cache, the global registry, the memory store's session, the loops of the input guard and output contract, the memory search loop, the history renderer, the catalogue loop, and the driver's nested loops. Most methods are proved equal to a specification function. The registry's `Initialize` and `Get`, `MemoryStore.LoadSession`, the history manager's constructor and its cached search (`SearchRelevantConversations`) are specified by the state they leave instead.
- Straight-line code becomes functions and lemmas. This covers the model adapter, the planning stage's transforms and the acceptance test.

## Where the documented intent and the code differ

The model follows the code in each case.

- **Perception selection can be empty.**
  - The documented intent is that perception never returns an empty `selected_servers` list. The code keeps a present list even when it is empty (`modules/perception.py:104-105`).
  - The output contract backfills a missing `selected_servers` with `[]` before perception sees the reply. So a reply that omits the field selects no servers at all (`Perception.BackfilledServersSelectNone`).
- **Perception searches history on every call.** Only the planning stage restricts the search to step 1 (`modules/perception.py:46-54`).
- **Template errors propagate.** Template loading and prompt formatting sit outside the `try` in both stages, so their errors reach the caller (`Perception.ExtractSpec`, `Decision.PlanSpec`).
- **A parsed list is not serialised.** The model adapter returns a decoded JSON list as a list, not as text (`ModelAdapter.ListReplyKept`).
- **The driver can crash.** It raises when input ends, when a dict result has no `result` key, and when an agent run raises. Only a keyboard interrupt is caught (`agent.py:35-73`).
- **Final-answer text stops at the next marker.** The final answer is the text between the first `FINAL_ANSWER:` and the next one, not everything after the marker (`Agent.SecondPartSpec`).
- **The `www.` URL repair is unreachable.**
  - The documented intent is that a bare `www.` address is repaired to an `https://` one.
  - The URL pattern only matches text that starts with `http://` or `https://`, and every such match parses with a scheme and a host. So the repair branch (`heuristics.py:74-78`) never runs, and neither does the invalid-format failure (`Heuristics.HttpShapedParses`, `Heuristics.CheckUrlsShaped`).
- **The output contract can raise.**
  - The documented intent is that the output contract always returns a report.
  - The code raises when the decoded JSON is neither a dict nor a list, because `in` or `.copy()` fails on it (`heuristics.py:180`, `heuristics.py:212`).
  - It also raises when a list lacks a required field, because the backfill assigns a string key into a list (`heuristics.py:184-195`).
  - The model reports both as `Err` (`Heuristics.RepairTree`).
- **Upper-case typo addresses are never rewritten.** The typo test lower-cases the address, but the replacement is case-sensitive. So `A@GMIAL.COM` is detected but left unchanged (`Heuristics.UpperCaseAddressKept`, `Heuristics.UpperCaseTypoDetected`).

## Model

| member | source | states |
|---|---|---|
| Heuristics.ValidateInputLength | heuristics.py:37-51 | valid iff 3 <= length <= 100000; otherwise the over-length or too-short message, and no message when valid |
| Heuristics.Truncate | heuristics.py:262-264 | the repaired over-length text keeps the first 99900 characters, ends with "... [truncated]" and has length exactly 99915 |
| Heuristics.NetlocEnd | heuristics.py:73-74 | the network location of a parsed URL runs up to the first `/`, `?` or `#` |
| Heuristics.UrlTooLongMessage | heuristics.py:69-70 | the over-length URL error starts with "URL exceeds maximum length of 2048 characters: " and ends with the URL's first 50 characters and "..." |
| Heuristics.CheckUrls | heuristics.py:67-84 | valid iff no error, valid iff a repaired text is returned; every error is one of the URL messages |
| Heuristics.ValidateUrls | heuristics.py:53-84 | the URL loop returns exactly the outcome of CheckUrls on the scanned URLs |
| Heuristics.AnyDenied | heuristics.py:96-100 | true iff some deny-list word, lower-cased, occurs in the lower-cased text |
| Heuristics.ValidateNoNsfw | heuristics.py:86-100 | valid iff no deny-list word occurs case-insensitively; the error is the content message |
| Heuristics.CheckEmails | heuristics.py:115-128 | valid iff no error, valid iff a repaired text is returned; errors are the invalid-format message |
| Heuristics.RepairTypos | heuristics.py:120-126 | the typo loop over the four provider pairs equals the specification FixTypos |
| Heuristics.ValidateEmailFormat | heuristics.py:102-128 | the address loop returns exactly the outcome of CheckEmails on the scanned addresses |
| Heuristics.LengthStage | heuristics.py:257-264 | valid iff no error; a valid text is kept unchanged |
| Heuristics.UrlStage | heuristics.py:266-272 | appends at most one error, and validity drops exactly when it appends one |
| Heuristics.NsfwStage | heuristics.py:274-279 | appends at most one error and never changes the text |
| Heuristics.EmailStage | heuristics.py:281-287 | appends at most one error, and validity drops exactly when it appends one |
| Heuristics.ValidateLlmInput | heuristics.py:243-289 | the imperative guard returns exactly the chained stages length, URL, content, email, each on the previous repaired text |
| Heuristics.InputGuardValidIffNoErrors | heuristics.py:253-289 | the guard is valid iff its error list is empty, and it reports at most four errors |
| Heuristics.InputGuardOverLength | heuristics.py:258-264 | over-length input is invalid, its first error is the length message and its repaired text has length 99915 |
| Heuristics.InputGuardTooShort | heuristics.py:258-264 | too-short input is invalid with the too-short message first and the text is not truncated |
| Heuristics.InputGuardContentIff | heuristics.py:274-279 | the content error is reported iff a deny-list word occurs in the text after the URL stage |
| Heuristics.HttpShapedParses | heuristics.py:64-80 | every URL the pattern can match parses with a scheme and a host, so the `www.` repair is unreachable |
| Heuristics.CheckUrlsShaped | heuristics.py:64-84 | on matched URLs a valid check leaves the text unchanged, and the check fails iff some URL exceeds 2048 characters |
| Heuristics.CheckEmailsShaped | heuristics.py:112-118 | the e-mail check never fails on addresses the pattern matched |
| Heuristics.InputGuardShaped | heuristics.py:253-289 | with pattern-shaped scanners the guard is valid iff the length is in bounds, no URL is over-long and no deny-list word occurs |
| Heuristics.UpperCaseAddressKept | heuristics.py:123-126 | an address without lower-case letters is never rewritten |
| Heuristics.UpperCaseTypoDetected | heuristics.py:124 | the case-insensitive typo test does match `A@GMIAL.COM` |
| Heuristics.TypoSuffixesExclusive | heuristics.py:121-124 | an address ends with at most one of the four typo domains |
| Heuristics.FixTyposNone | heuristics.py:121-126 | an address ending in none of the remaining typo domains leaves the text unchanged |
| Heuristics.TypoCorrected | heuristics.py:121-126 | an address whose lower-cased form ends with `@` and a typo domain has that domain replaced by its provider, in the address and in the text |
| Heuristics.TypoAddressCorrected | heuristics.py:126 | for `local@typo` with the typo domain nowhere in `local`, the replacement yields exactly `local@provider` |
| Heuristics.TypoAddressRepaired | heuristics.py:115-128 | the e-mail check over `local@typo` followed by other addresses equals the check of the rest on the text with `local@provider` substituted |
| Heuristics.FenceAfterPlain | heuristics.py:142-143 | a fence after backtick-free text is the first fence found |
| Heuristics.FencedBlockExtracts | heuristics.py:142-146 | a fenced block's trimmed interior is what gets decoded |
| Heuristics.NoJsonTag | heuristics.py:142 | a body not starting with `json` keeps the optional tag unmatched |
| Heuristics.ValidateJsonParsable | heuristics.py:131-163 | valid iff a value was decoded, iff there is no error |
| Heuristics.MissingFields | heuristics.py:180 | on a dict, exactly the schema fields absent from it, in schema order |
| Heuristics.BackfillKeys | heuristics.py:184-195 | backfilling appends the missing keys after the existing ones, in order |
| Heuristics.BackfillKeeps | heuristics.py:184-195 | backfilling leaves every other key's value untouched |
| Heuristics.BackfillDefaults | heuristics.py:185-195 | each missing field receives its default: "default_tool", {}, [], or null |
| Heuristics.ValidateRequiredFields | heuristics.py:165-199 | an unknown schema returns the input valid and unchanged; valid iff no error; a valid result is the input |
| Heuristics.RequiredFieldsBackfill | heuristics.py:176-199 | the repaired dict keeps its keys and values, holds every required field with its default, and is valid iff nothing was missing |
| Heuristics.DistinctFilter | heuristics.py:180 | missing fields are listed without repeats |
| Heuristics.KeyDefault | heuristics.py:221-228 | every replacement for an empty value is non-blank |
| Heuristics.CheckEmpty | heuristics.py:214-233 | the walk leaves no empty object value, reports nothing iff there was none, changes nothing when it reports nothing and keeps every object's keys |
| Heuristics.CheckFields | heuristics.py:215-230 | same properties over one object's fields, keys kept in order |
| Heuristics.CheckItems | heuristics.py:231-233 | same properties over a list; array elements themselves are kept and the length is unchanged |
| Heuristics.CheckEmptyIdempotent | heuristics.py:214-240 | a second walk over a repaired tree reports nothing and changes nothing |
| Heuristics.ValidateEmptyValues | heuristics.py:201-240 | defined on dicts and lists; valid iff no empty value anywhere; the result never has an empty value |
| JsonData.PlainRepr | heuristics.py:197 | the `repr` of a field name without quotes, backslashes or non-printable characters is the name in single quotes |
| JsonData.QuoteSwitch | heuristics.py:238 | every name holding a single quote and no double quote, backslash, control or non-printable character is shown in double quotes, unescaped |
| JsonData.ReprOneLine | heuristics.py:197 | a listed name never spans lines: its `repr` holds no newline |
| Heuristics.RepairTree | heuristics.py:314-329 | succeeds on dicts, and on lists unless a backfill would be needed; valid iff no errors; a dict stays a dict |
| Heuristics.ValidateLlmOutput | heuristics.py:291-331 | the imperative pipeline returns exactly the output contract |
| Heuristics.RepairDecoded | heuristics.py:314-329 | the required-field and empty-value steps return exactly RepairTree |
| Heuristics.OutputPassThrough | heuristics.py:307 | a format outside json/tool_call/perception/plan passes the text through, valid |
| Heuristics.OutputParseFailure | heuristics.py:308-312 | a decoding failure returns the original text with exactly one error |
| Heuristics.JsonFormatOnlyEmpties | heuristics.py:315-327 | the `json` format runs only the empty-value check |
| Heuristics.NothingMissing | heuristics.py:182-199 | with every required field present the check is valid and returns the input |
| Heuristics.RepairTreeComplete | heuristics.py:314-329 | a decoded dict comes out with every required field and no empty value |
| Heuristics.RepairTreeIdempotent | heuristics.py:314-329 | repairing a repaired dict is valid and changes nothing |
| Heuristics.OutputIdempotent | heuristics.py:291-331 | a reply decoding to the contract's own output is reported valid with the same output |
| Heuristics.ApplyHeuristics | heuristics.py:333-362 | the report holds the input guard's result on the input and the output contract's result on the output; overall validity is input validity and output validity; it fails, with the output contract's error, exactly where the output contract fails |
| ModelAdapter.GenerateText | modules/model_manager.py:31-57 | an unsupported type raises first; the backend gets the guard's repaired prompt; backend errors propagate; a non-JSON format returns the backend's text |
| ModelAdapter.OnlyRepairedPromptMatters | modules/model_manager.py:33-41 | two prompts with the same repaired text get the same reply, valid or not |
| ModelAdapter.DictReply | modules/model_manager.py:46-53 | a decoded dict is returned as the serialisation of its repaired form, complete and without empty values |
| ModelAdapter.ListReplyKept | modules/model_manager.py:51-57 | a decoded list is returned as a list, not as text |
| History.ResultField | modules/history_manager.py:112-116 | present iff the decoded data is a dict with a `result` key |
| History.PyPrefix | modules/history_manager.py:120 | Python's `matches[:n]`: a prefix, of length n when n is in range |
| History.SearchOutcome | modules/history_manager.py:68-128 | no dispatcher, a missing tool, a timeout, an exception, undecodable content, a reply without `result`, a `result` that is not a dict and a `matches` that is neither a list nor a string are all failures; a success holds at most max_results items |
| History.StringMatchesReturned | modules/history_manager.py:116-125 | for any decoded reply whose `result` is a dict holding a string `matches`, the search succeeds with its first max_results characters, each as a one-character string |
| History.PrefixChars | modules/history_manager.py:120 | slicing the characters of a string is the characters of the sliced string |
| History.CharsUnrenderable | modules/history_manager.py:197-201 | a non-empty list of one-character strings cannot be rendered, because `str` has no `get` |
| History.SearchReturnsPrefix | modules/history_manager.py:116-125 | for any decoded reply whose `result` is a dict holding a list `matches`, the search succeeds with a prefix of that list, all of it when it has no more than max_results items |
| History.SearchWithoutMatches | modules/history_manager.py:116 | for any decoded reply whose `result` is a dict without `matches`, the search succeeds with no items |
| History.SessionHistory | modules/history_manager.py:130-180 | `{}` without a dispatcher or the tool, on undecodable content and on a reply without `result`; otherwise the decoded `result` |
| History.HistoryManager.constructor | modules/history_manager.py:27-37 | a manager starts with an empty cache |
| History.HistoryManager.SearchRelevantConversations | modules/history_manager.py:52-128 | a cached query returns the stored list untouched; a failure returns [] and caches nothing; a success returns and caches exactly the found list |
| History.HistoryManager.CurrentSessionHistory | modules/history_manager.py:130-180 | without a dispatcher the session history is `{}` |
| History.RepeatedQuery | modules/history_manager.py:63-125 | repeating a successful query returns the identical list, whatever the dispatcher does the second time |
| History.FailedQueryRetried | modules/history_manager.py:63-128 | a failed search is not cached, so the next call searches again |
| History.CleanAnswer | modules/history_manager.py:216-219 | a leading FINAL_ANSWER: is removed and the rest trimmed; other answers are unchanged |
| History.CleanAnswerOnce | modules/history_manager.py:218-219 | only one leading marker is removed |
| History.StripUntouched | modules/history_manager.py:219 | trimming leaves text without surrounding whitespace unchanged |
| History.HeaderStarts | modules/history_manager.py:210 | each block begins with its header |
| History.FormatItem | modules/history_manager.py:197-225 | an item renders iff it is a dict whose answer can be cleaned; the rendering is the header of its date followed by the query, answer and content lines, each present only when the source adds it |
| History.Rendered | modules/history_manager.py:197-225 | one rendering per item, in input order |
| History.FormatHistoryBlocks | modules/history_manager.py:192-227 | fails iff some item cannot render; otherwise one block per item in order, joined by "\n" |
| History.RenderedStep | modules/history_manager.py:195-225 | the renderings grow one item at a time |
| History.FormatHistoryForContext | modules/history_manager.py:182-227 | the imperative renderer returns exactly FormatHistory, "" for no items |
| History.ItemLines | modules/history_manager.py:199-223 | a falsy timestamp gives "Unknown time"; a Query line iff user_query is truthy, and then no Content line |
| History.Registry.constructor | modules/history_manager.py:230 | no manager exists initially |
| History.Registry.Initialize | modules/history_manager.py:232-236 | installs a fresh manager with the given dispatcher and an empty cache |
| History.Registry.Get | modules/history_manager.py:238-244 | returns the existing manager, or creates a dispatcher-less one only when none exists |
| MemoryServer.FlattenMembers | modules/mcp_server_memory.py:79-82 | a loaded list contributes its elements, a dict itself, anything else nothing |
| MemoryServer.Project | modules/mcp_server_memory.py:257-263 | a match is projected to exactly the five fields user_query, final_answer, timestamp, intent, text |
| MemoryServer.ProjectKeepsContent | modules/mcp_server_memory.py:248-263 | the projection keeps the searched content |
| MemoryServer.Matching | modules/mcp_server_memory.py:245-263 | matches are dicts and no more than the memories |
| MemoryServer.MatchingSelects | modules/mcp_server_memory.py:246-263 | every match is the projection of a memory containing every term |
| MemoryServer.MatchingComplete | modules/mcp_server_memory.py:246-263 | conversely, every dict memory containing every term is matched, as its projection |
| MemoryServer.MatchingCount | modules/mcp_server_memory.py:246-263 | the number of matches is the number of dict memories containing every term |
| MemoryServer.EmptyQueryMatchesAll | modules/mcp_server_memory.py:243-255 | with no terms every dict memory matches |
| MemoryServer.BlankQueryHasNoTerms | modules/mcp_server_memory.py:243 | a blank query has no terms |
| MemoryServer.KeyLeRefl | modules/mcp_server_memory.py:266 | the timestamp order is reflexive |
| MemoryServer.KeyLeTotal | modules/mcp_server_memory.py:266 | the timestamp order is total |
| MemoryServer.KeyLeTrans | modules/mcp_server_memory.py:266 | the timestamp order is transitive |
| MemoryServer.InsertDesc | modules/mcp_server_memory.py:266 | insertion adds exactly one element |
| MemoryServer.SortDesc | modules/mcp_server_memory.py:266 | sorting keeps the length |
| MemoryServer.InsertDescPerm | modules/mcp_server_memory.py:266 | insertion is a permutation of the element and the list |
| MemoryServer.InsertDescBelow | modules/mcp_server_memory.py:266 | insertion keeps a common upper bound |
| MemoryServer.ConsDescending | modules/mcp_server_memory.py:266 | a head at least every tail key extends a descending list |
| MemoryServer.InsertDescSorted | modules/mcp_server_memory.py:266 | insertion keeps a list descending |
| MemoryServer.InsertDescWithKey | modules/mcp_server_memory.py:266 | insertion keeps the relative order of elements with equal keys |
| MemoryServer.SortDescCorrect | modules/mcp_server_memory.py:266 | the sort is a permutation, newest first, and stable for equal timestamps |
| MemoryServer.ListTimestampsNotComparable | modules/mcp_server_memory.py:266 | two list timestamps are reported as not comparable |
| MemoryServer.Weights | modules/mcp_server_memory.py:273-279 | one word count per match, in order |
| MemoryServer.Budget | modules/mcp_server_memory.py:269-285 | never keeps more than all matches |
| MemoryServer.BudgetCorrect | modules/mcp_server_memory.py:269-285 | the kept prefix's words sum to the total, stay within 10000, and the scan stops at the first match that would overflow |
| MemoryServer.SearchMemories | modules/mcp_server_memory.py:238-300 | total_matches is the number of dict memories containing every term; matches_returned <= total_matches and total_words <= 10000 |
| MemoryServer.SearchMatchesSelected | modules/mcp_server_memory.py:245-266 | returned matches are newest first and each contains every query term |
| MemoryServer.SearchComplete | modules/mcp_server_memory.py:245-294 | when the word budget cuts nothing, every dict memory containing every query term is returned |
| MemoryServer.ReplyReadByHistory | modules/mcp_server_memory.py:288-300 | the history retriever reads back exactly the returned matches, or none after an error |
| MemoryServer.SearchHistoricalConversations | modules/mcp_server_memory.py:238-300 | the imperative search returns exactly SearchMemories |
| MemoryServer.KeepWithinBudget | modules/mcp_server_memory.py:269-285 | the budget loop with its break returns the Budget prefix and its word total |
| MemoryServer.MatchingErrSticks | modules/mcp_server_memory.py:298-300 | an exception on one memory aborts the whole search with that error |
| MemoryServer.Iterate | modules/mcp_server_memory.py:145 | iterating fails exactly on values Python cannot iterate |
| MemoryServer.ToolCallView | modules/mcp_server_memory.py:140-144 | a tool call projects iff it is a dict with `tool` and `args`; the view has exactly the keys tool, args, result_summary, keeps the call's `tool` and `args`, and its result_summary is the call's, or "No summary available" when it has none |
| MemoryServer.InteractionView | modules/mcp_server_memory.py:136-149 | a projected interaction is a dict, and its view has exactly the keys query, intent, tool_calls, final_answer, tags; the values are stated by ViewKeepsAnswer, ViewKeepsIntentAndTags and ViewToolCalls |
| MemoryServer.Views | modules/mcp_server_memory.py:134-151 | one view per interaction, in order |
| MemoryServer.ConversationFlow | modules/mcp_server_memory.py:118-154 | the flow has exactly the keys conversation_flow, timestamp_start, timestamp_end; the values are stated by FlowOnePerInteraction and FlowTimestamps |
| MemoryServer.FlowOnePerInteraction | modules/mcp_server_memory.py:134-151 | fails iff some interaction cannot be projected; otherwise one view per interaction in order |
| MemoryServer.ViewKeepsAnswer | modules/mcp_server_memory.py:137-147 | a view keeps the interaction's query and final answer, "" when absent |
| MemoryServer.ViewKeepsIntentAndTags | modules/mcp_server_memory.py:138-148 | a view keeps the interaction's intent, "" when absent, and its tags, [] when absent |
| MemoryServer.ViewToolCalls | modules/mcp_server_memory.py:139-146 | a view's tool_calls holds one entry per tool call the interaction iterates over, in order, each that call's ToolCallView; [] when the interaction has no `tool_calls` |
| MemoryServer.FlowTimestamps | modules/mcp_server_memory.py:134-153 | timestamp_start and timestamp_end are the first and the last interaction's `timestamp` (null when it has none); an empty session gives an empty flow with both null |
| MemoryServer.MemoryStore.constructor | modules/mcp_server_memory.py:35-38 | the store starts with no current session |
| MemoryServer.MemoryStore.LoadSession | modules/mcp_server_memory.py:40-42 | loading a session makes it current |
| MemoryServer.MemoryStore.FlowFor | modules/mcp_server_memory.py:118-154 | defaults to the current session; an unknown conversation gives the not-found error |
| MemoryServer.Latest | modules/mcp_server_memory.py:191 | the latest session is a listed name, lexicographically greatest |
| MemoryServer.Interactions | modules/mcp_server_memory.py:209-212 | its members are exactly the dict items whose type is not run_metadata, kept in file order (a subsequence of the items) |
| MemoryServer.JsonNames | modules/mcp_server_memory.py:216 | exactly the `.json` entries |
| MemoryServer.CurrentConversations | modules/mcp_server_memory.py:164-235 | the three no-session messages, and the latest session directory with its interactions |
| MemoryServer.DayFileSession | modules/mcp_server_memory.py:216-232 | with day-level files, the greatest file gives the session id without `.json` and its filtered interactions |
| Perception.EffectiveInput | modules/perception.py:39-43 | the repaired input replaces the user input only when validation fails |
| Perception.ServerLine | modules/perception.py:64-66 | a server renders iff its description entry is a dict |
| Perception.ServerLines | modules/perception.py:63-66 | one line per server, in mapping order |
| Perception.ServersTextLines | modules/perception.py:63-68 | one line per server, in mapping order, joined by "\n": line i is exactly "- " + id + ": " + the text of its `description`, or "No description available" when it has none; fails iff some entry is not a dict |
| Perception.BuildServersText | modules/perception.py:63-68 | the catalogue loop returns exactly ServersText |
| Perception.ServerLinesStep | modules/perception.py:63-66 | the lines grow one server at a time |
| Perception.PromptArgsFor | modules/perception.py:72-91 | with the placeholder, history is passed separately; without it, the raw input when there is no history |
| Perception.HistoryPrecedesInput | modules/perception.py:73-79 | without the placeholder, history is wrapped before the current query |
| Perception.Strings | modules/perception.py:27-32 | a list field validates iff every element is a string |
| Perception.StringListField | modules/perception.py:29-32 | an absent list field defaults to []; a present one is accepted iff it is a list of strings, and then the result is exactly those strings in order |
| Perception.HintField | modules/perception.py:30 | an absent or null `tool_hint` is None; a string is kept as is; any other value is rejected |
| Perception.Validate | modules/perception.py:27-32 | the reply validates iff `intent` is a string, `entities`, `tags` and `selected_servers` are absent or lists of strings and `tool_hint` is absent, null or a string; a valid result carries the reply's intent, entities, tool hint, tags and selected servers, with the field defaults |
| Perception.IdValues | modules/perception.py:105 | the server ids as JSON strings, in order |
| Perception.MissingServersSelectAll | modules/perception.py:104-105 | a reply without selected_servers selects all servers in mapping order |
| Perception.PresentServersKept | modules/perception.py:104-108 | a present selection is kept as is |
| Perception.MissingIntentFallsBack | modules/perception.py:108-119 | a reply without intent gives the full fallback |
| Perception.ServersFromReplyOrAll | modules/perception.py:93-119 | the result is the fallback, or its servers come from the reply, or all servers when the reply has none |
| Perception.BackfilledServersSelectNone | modules/perception.py:95-108 | a reply lacking selected_servers is backfilled by the contract with [] and so selects no servers |
| Perception.BackfilledValidates | modules/perception.py:104-108 | the backfilled reply validates with an empty selection |
| Perception.RepairFilledPerception | modules/perception.py:95 | the perception contract backfills a lone intent with an empty selected_servers |
| Perception.ExtractSpec | modules/perception.py:34-119 | a history or catalogue failure is the result; otherwise a formatting failure of the prompt is the result, and a formatted prompt gives exactly the interpreted model reply |
| Perception.ExtractPerception | modules/perception.py:34-119 | searches with the effective input on every call, caches as the retriever does, and returns ExtractSpec |
| Perception.ChosenInput | modules/perception.py:128 | the explicit input when non-empty, else the context's |
| Perception.RunPerception | modules/perception.py:122-130 | perception on the chosen input |
| Decision.MemoryLines | modules/decision.py:62 | one "- text" line per memory item |
| Decision.MemoryTextLines | modules/decision.py:62 | "None" iff there are no items; otherwise its lines are the memory lines |
| Decision.JoinStartsWith | modules/decision.py:62 | the joined text starts with the first line |
| Decision.PlanArgsFor | modules/decision.py:68-91 | memory text and tool descriptions always supplied; the three history branches |
| Decision.SameBranchesAsPerception | modules/decision.py:68-91 | the planning prompt uses the same input and history branches as perception |
| Decision.CleanPlan | modules/decision.py:98-105 | the cleaned plan has no surrounding whitespace |
| Decision.UnfencedReplyTrimmed | modules/decision.py:98-102 | an unfenced reply is only trimmed |
| Decision.FencedCodeUnwrapped | modules/decision.py:101-105 | a fenced python block yields exactly its body |
| Decision.FenceRemoved | modules/decision.py:102-103 | stripping backticks removes the fences |
| Decision.TagRemoved | modules/decision.py:104-105 | the python tag is removed case-insensitively and the rest trimmed |
| Decision.SkipSpace | modules/decision.py:107 | stops at the end or at the first character that is not whitespace |
| Decision.SkipSpaceRun | modules/decision.py:107 | every character skipped is whitespace |
| Decision.OpeningDefAccepted | modules/decision.py:107-108 | a reply starting `def solve(` is accepted |
| Decision.LaterLineAccepted | modules/decision.py:107 | a solve definition on any later line is accepted |
| Decision.SkipShift | modules/decision.py:107 | whitespace skipping is unaffected by the text before a line |
| Decision.DefShift | modules/decision.py:107 | a definition found in a suffix is found in the whole text |
| Decision.HeaderShift | modules/decision.py:107 | an optionally async header in a suffix is one in the whole text |
| Decision.SingleLineRejected | modules/decision.py:107-111 | one line not starting with whitespace, `a` or `d` is rejected |
| Decision.FallbacksRejected | modules/decision.py:107-116 | neither fallback answer passes the acceptance test |
| Decision.PlanFromReply | modules/decision.py:96-116 | the cleaned text when it defines solve; otherwise the fixed no-solve answer; on an exception the unknown answer |
| Decision.PlanAcceptedIff | modules/decision.py:107-116 | the plan defines solve iff the reply's cleaned text does; otherwise it starts with FINAL_ANSWER: |
| Decision.PlanSpec | modules/decision.py:24-116 | a history failure is the result; otherwise a formatting failure of the prompt is the result, and a formatted prompt gives exactly the plan taken from the reply; every plan defines `solve` or starts with FINAL_ANSWER: |
| Decision.GeneratePlan | modules/decision.py:24-116 | searches history only at step 1, leaves the cache alone at later steps, and returns PlanSpec |
| Decision.LaterStepsIgnoreHistory | modules/decision.py:44-60 | without history the effective input goes in unwrapped and any history argument is "" |
| Agent.SecondPartSpec | agent.py:60 | split(marker)[1] is the text after the first marker, up to the next one |
| Agent.AfterFirst | agent.py:60 | the text up to the next marker is a marker-free prefix |
| Agent.Classify | agent.py:57-68 | FINAL_ANSWER: wins; otherwise FURTHER_PROCESSING_REQUIRED: continues; otherwise raw |
| Agent.React | agent.py:55-71 | a run prints at most one line and never stops the driver; it re-enters exactly when that line is the further-processing one |
| Agent.Captured | agent.py:52-53 | an existing session is kept; otherwise the context's session id is taken |
| Agent.StepsLast | agent.py:36-71 | n+1 steps is one step after n steps |
| Agent.StepsStay | agent.py:36-71 | a stopped or crashed driver stays put |
| Agent.ExitStops | agent.py:38-39 | `exit` in any case stops the driver for good |
| Agent.NewForgetsSession | agent.py:40-42 | `new` in any case forgets the session and starts no turn |
| Agent.LineStartsTurn | agent.py:37-44 | any other line starts a turn |
| Agent.SessionCaptured | agent.py:45-53 | every context run captures the session once and reuses it |
| Agent.SessionDroppedOnlyByNew | agent.py:40-53 | only the `new` command loses a session |
| Agent.FinalTakesPrecedence | agent.py:59-61 | a final marker ends the turn with the trimmed split text |
| Agent.ContinueReenters | agent.py:62-65 | the continue marker re-enters with the trimmed text and the same session |
| Agent.OtherAnswersEndTurn | agent.py:57-71 | raw and non-dict results end the turn; a missing result key crashes |
| Agent.StepsExtend | agent.py:36-71 | shown answers only grow, contexts only increase and input is consumed from the front |
| Agent.Converse | agent.py:19-73 | the nested loops reach exactly the state of the step relation after the given number of steps |

## Left out

- File-system traversal is left out. The model starts from already loaded values:
  - the memory directory walk (`modules/mcp_server_memory.py:44-116`);
  - `os.walk` (`modules/mcp_server_memory.py:196-205`);
  - config and YAML loading;
  - prompt loading.
- Directory checks (`os.path.exists`, `isdir`) are left out. Their answers arrive through the `Day` datatype and the `found` parameter.
- Server start-up and shutdown are left out: FastMCP registration, signal handlers, `__main__`.
- `modules/tools.py` and the `core` package (`AgentLoop`, `MultiMCP`, `AgentContext`, `MemoryItem`) are not part of this model. Their behaviour arrives as parameters. A memory item is modelled as its text.
- The language-model backends (`modules/model_manager.py:59-80`) are left out because they are network calls. Their `.strip()` belongs to the backend parameter.
- The `ModelManager` constructor (`modules/model_manager.py:18-29`) is left out because it loads configuration. The configured model type is a parameter.
- The console driver's set-up is left out because it loads configuration and starts servers (`agent.py:23-33`). This covers loading the profile, starting the MCP servers, and initialising the history manager.
- Asynchrony, the 10-second timeout and the dispatcher are left out. Each tool call is an abstract outcome: returned, timed out, or raised.
- `json.loads` with the regex quote repair, and `json.dumps`, are parameters. Their `dumps` failure branch in `generate_text` is folded into `dumps`.
- The URL and address regexes are left out. Their matches are the scanner's lists.
- The MULTILINE `solve` regex is modelled exactly; its `\s` is Python's whitespace set.
- Logging, `print` and `input()` are left out. Input lines are a list, and end of input is a crash.
- A keyboard interrupt in the driver is left out: it comes from outside the program.
- Pydantic coercion is modelled strictly. A non-string list element or hint is a validation failure.
- JSON numbers are integers. Floating point is not modelled.
- Exception messages are approximate. Only their presence and kind are modelled.
- `str.lower` maps ASCII letters only. Unicode case mapping is not modelled.
- JsonData.StrRepr: the characters escaped as non-printable are the C0 and C1 controls, DEL, the soft hyphen and the non-ASCII spaces. Other characters Python treats as non-printable (format characters, private-use and unassigned code points) are kept unescaped, because the Unicode character database is not part of the model.
- Heuristics.ApplyHeuristics: `validate_and_fix_llm_interaction` (`heuristics.py:365-390`) only logs and re-packs this report, so it has no member of its own.
- Heuristics.CheckEmpty: the source mutates nested dicts of a shallow copy in place. The model rebuilds the tree as a value; the returned tree is the same, but sharing with the caller's dict is not modelled.
- MemoryServer.SortDesc: the in-place `list.sort` is a function on sequences (insertion sort). Timestamps are ordered only when all are numbers (booleans included) or all are strings. Python would also sort list timestamps lexicographically; the model reports them, like `None` and dicts, as the comparison error (`MemoryServer.ListTimestampsNotComparable`). An element-wise list order, which can itself raise part-way through a comparison, would need a second, partial key order. The comparison error's message is simplified.
- MemoryServer.InteractionView: its own contract states only the dict shape and the key list; the value of each key is stated by the lemmas ViewKeepsAnswer, ViewKeepsIntentAndTags and ViewToolCalls.
- MemoryServer.ConversationFlow: its own contract states only the key list; the entries are stated by FlowOnePerInteraction and the timestamps by FlowTimestamps.
- MemoryServer.MatchWords: words are counted on the joined text, split on Python's whitespace set.
- History.HeaderDate: `datetime.fromtimestamp` formatting is a parameter, and its overflow error is not modelled.
- Perception.BackfilledServersSelectNone: one decoding parameter stands for both the output contract's fenced-block decoding and the stage's own `json.loads`; the lemma assumes, in its requires, that they agree on the two texts it names.
- Agent.Converse: the driver has no bound on re-entries, so the model runs it for a given number of steps (fuel). Nothing is claimed about termination.
