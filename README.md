# claude_clone core, modelled in Dafny

This project models the core of `claude_clone`. It is a terminal coding agent that talks to a local Ollama model and lets the model call tools. The core modelled here covers:

- **The agent's turn loop** (`AgentLoop`). It appends the user's message. Then it makes up to ten model requests. It runs the tool calls of each reply, in order, asking the user first where the confirmation policy says so. A reply without calls ends the turn.
- **Recovery of tool calls written as text** (`Extractor`). `find_balanced_json` is a brace-balancing scanner that knows about strings and escapes. The first pass looks for `{"name": ..., "arguments": ...}` objects. The fallback pass looks for `tool_name({...})` and `tool_name {...}`. The recognised spans are then removed from the reply text.
- **The provider's reply parsing** (`Provider`: `_parse_chunk`, `_parse_response`). It includes where the text extractor is applied. Also the message records and their wire format (`Messages`).
- **Token accounting and the context budget** (`Tokens`, `Context`). This covers usage, the summarise threshold, the transcript handed to the summariser, and compaction of older messages into a summary.
- **Plan mode** (`Plans`, `PlanTool`). A plan, its markdown and dictionary forms, the plan manager's state machine, the read-only tool gate, and the `create_plan` tool.
- **The tools' common types and the registry** (`Base`, `Registry`).
- **The todo list and the `todo_write` tool** (`Todo`).
- **The text logic of `read_file` and `edit_file`** (`FileOps`).
- **Configuration** (`Config`): the permission-mode cycle, the confirmation settings and the model table.
- **Session persistence** (`Session`): message records, titles, and the newest-first listing.

Classes model the objects that the source updates in place:

- `Agent` (its conversation);
- `ToolRegistry` (a dictionary with its insertion order);
- `Plan` and `PlanManager`;
- `TodoManager`;
- `PermissionModeManager`.

The source's singletons are explicit instances. Loops in the source are methods with loop invariants. Each method is proved against a pure specification function, and the properties are lemmas about those functions.

Everything the core gets from outside is a parameter:

- `json.loads` is `parse: string -> Option<Json>`.
- tiktoken's encoding and `str()` of an argument dictionary form a `Tokenizer`.
- The model's replies, the user's confirmation answers and the tools' results are `Oracles` indexed by how many of each a turn has used.
- A tool's behaviour is a `Runner`.
- What reading a file produced is a `FileRead`.
- What `json.load` made of a session file is `Option<map<string, Json>>`.
- The clock is a `Timestamp` or string.

`src/claude_clone/core/agent.py` decides whether to ask for confirmation only from `confirm_writes`, `confirm_commands` and the shell command's first word. It has no per-directory approval, no permission-mode check, no plan-mode check inside the loop, no de-duplication of calls, no repetition detection, no retry and no timeouts. Every call of a reply is either executed or declined.

## Model

| member | source | states |
|---|---|---|
| AgentLoop.ConfirmationPolicy | src/claude_clone/core/agent.py:139-163 | writes, edits and commits ask exactly when `confirm_writes` is set; a shell command asks exactly when `confirm_commands` is set and its first word is not a safe command, so an empty command asks; no other tool ever asks |
| AgentLoop.CommandOf | src/claude_clone/core/agent.py:147 | the command is the string `command` argument; an absent argument gives `""` |
| AgentLoop.RequiresConfirmation | src/claude_clone/core/agent.py:139-163 | only writes, edits, commits and shell commands ever ask; a shell command asks only under `confirm_commands`, the others only under `confirm_writes` |
| AgentLoop.ToolStep | src/claude_clone/core/agent.py:83-118 | one tool call appends exactly one tool message; a declined call is not executed and reports the refusal; any other call is executed and its result (or `Error: ...`) is reported |
| AgentLoop.ToolSteps | src/claude_clone/core/agent.py:83-121 | the inner loop makes no model request, does not end the turn, and asks at most one question per call |
| AgentLoop.ToolStepsShape | src/claude_clone/core/agent.py:83-121 | the inner loop keeps earlier messages, appends one tool message per call and executes at most every call |
| AgentLoop.IterateGrowsAt | src/claude_clone/core/agent.py:53-76 | each iteration makes exactly one model request, with the conversation as it stood, and only appends to the conversation |
| AgentLoop.IterateWithCalls | src/claude_clone/core/agent.py:79-121 | a reply with calls appends the assistant message carrying them, then only tool messages, and the turn continues |
| AgentLoop.IterateFinal | src/claude_clone/core/agent.py:123-132 | a reply without calls appends its text, if it has any, as the final assistant message and ends the turn |
| AgentLoop.RunByStops | src/claude_clone/core/agent.py:53-57 | once a final reply has arrived, further iterations change nothing |
| AgentLoop.RunByFrom | src/claude_clone/core/agent.py:53-57 | running n iterations and then m more is running n + m |
| AgentLoop.RunByShape | src/claude_clone/core/agent.py:53-132 | iterations only append: the conversation and request log grow, every request is a prefix of the conversation, and an unfinished run has made exactly one request per iteration |
| AgentLoop.StepGrows | src/claude_clone/core/agent.py:53-132 | the loop's iteration makes one request with the current conversation and only appends |
| AgentLoop.RunNext | src/claude_clone/core/agent.py:53-57 | an unfinished turn goes on with one more iteration |
| AgentLoop.Turn | src/claude_clone/core/agent.py:44-137 | a turn keeps the earlier conversation and the user's message in place; it makes 1 to 10 requests, the first with the conversation ending in the user's message and each with a prefix of the final conversation; it stops early only on a final reply |
| AgentLoop.RunByFirst | src/claude_clone/core/agent.py:47-57 | the same shape for any growing step, starting with no request made |
| AgentLoop.Agent.constructor | src/claude_clone/core/agent.py:14-30 | a new agent's conversation is only the system prompt |
| AgentLoop.Agent.ClearHistory | src/claude_clone/core/agent.py:32-34 | clearing leaves only the system prompt |
| AgentLoop.Agent.HandleToolCall | src/claude_clone/core/agent.py:83-118 | one pass of the inner loop body does what `ToolStep` specifies |
| AgentLoop.Agent.HandleToolCalls | src/claude_clone/core/agent.py:79-121 | the inner loop does what `ToolSteps` specifies |
| AgentLoop.Agent.Iteration | src/claude_clone/core/agent.py:57-132 | one outer iteration does what `Iterate` specifies and records the request made with the old conversation |
| AgentLoop.Agent.ProcessMessage | src/claude_clone/core/agent.py:44-137 | the new conversation, the requests and the executed calls are those of `Turn`; the max-iterations warning is shown exactly when the 10th request was made |
| AgentLoop.Agent.RunLoop | src/claude_clone/core/agent.py:53-132 | the outer loop does what `Run` for 10 iterations specifies and makes at most 10 requests |
| Base.Ok | src/claude_clone/tools/base.py:17-20 | a success with the given output and metadata and no error |
| Base.Fail | src/claude_clone/tools/base.py:22-25 | a failure with the given error, empty output and no metadata |
| Base.ToSchema | src/claude_clone/tools/base.py:41-54 | the schema is of type function and carries the tool's name and its required parameters |
| Base.ToSchemaIsCreateToolSchema | src/claude_clone/tools/base.py:41-54 | a tool's own schema equals the provider's `create_tool_schema` for the same fields |
| Config.IndexOf | src/claude_clone/config.py:26 | the position of a mode in the cycling order |
| Config.Next | src/claude_clone/config.py:41-42 | the next mode's position is one past the current one's, wrapping at three |
| Config.CycleOrder | src/claude_clone/config.py:39-43 | normal, then auto-accept, then plan mode, then normal again; three cycles return to the start and no cycle stays put |
| Config.DisplayInfoDistinct | src/claude_clone/config.py:49-55 | different modes show different names |
| Config.PermissionModeManager.constructor | src/claude_clone/config.py:28-32 | a new manager starts in normal mode |
| Config.PermissionModeManager.Current | src/claude_clone/config.py:34-37 | the property reads the stored mode |
| Config.PermissionModeManager.Cycle | src/claude_clone/config.py:39-43 | cycling moves to the next mode and returns it |
| Config.PermissionModeManager.SetMode | src/claude_clone/config.py:45-47 | the mode becomes the one given |
| Config.PermissionModeManager.GetDisplayInfo | src/claude_clone/config.py:49-55 | the name and colour of the current mode, and no other mode has that name |
| Config.GetModelConfig | src/claude_clone/config.py:132-141 | a listed model gets its table entry; any other model gets the default |
| Config.ModelConfigFacts | src/claude_clone/config.py:98-141 | every model gets a window of at least 8192 tokens, and 8192 exactly when unlisted; only `codellama:34b` lacks tool support |
| Context.TruncDiv | src/claude_clone/core/context.py:58 | `int()` of a quotient truncates toward zero |
| Context.NewContextManager | src/claude_clone/core/context.py:40-59 | the threshold is `int(max_tokens * fraction)`, the largest integer not above the product for a non-negative product |
| Context.GetUsage | src/claude_clone/core/context.py:61-79 | usage reports the counted tokens, and what is left after the reserve, clamped at 0 |
| Context.EstimateTokensForResponse | src/claude_clone/core/context.py:185-195 | the response estimate is exactly the usage report's available figure |
| Context.ShouldSummarize | src/claude_clone/core/context.py:81-91 | summarising is due exactly when the usage report's used figure exceeds the threshold fixed at construction |
| Context.ShouldSummarizeStays | src/claude_clone/core/context.py:81-91 | appending a message never makes summarising stop being due |
| Context.AppendShrinksRoom | src/claude_clone/core/context.py:61-79 | appending a message uses at least 4 more tokens and never leaves more room |
| Context.Clip | src/claude_clone/core/context.py:172-174 | content up to 1000 characters is kept; longer content is cut to 1000 and marked truncated |
| Context.CallLines | src/claude_clone/core/context.py:179-181 | one annotation line per tool call |
| Context.FlatMapConcat | src/claude_clone/core/context.py:167-183 | the transcript lines of two lists are those of the first followed by those of the second |
| Context.TranscriptConcat | src/claude_clone/core/context.py:167-183 | the transcript of a concatenation is the concatenation of the transcripts |
| Context.TranscriptLineCount | src/claude_clone/core/context.py:167-183 | the transcript has one line per message plus one per tool call |
| Context.FormatEntry | src/claude_clone/core/context.py:171-181 | one message's lines: `ROLE: content` (clipped), then a line per tool call |
| Context.FormatMessagesForSummary | src/claude_clone/core/context.py:160-183 | the loop produces the transcript, with the entries joined by blank lines |
| Context.Tail | src/claude_clone/core/context.py:122 | `messages[-n:]` has n messages, or all of them when n is 0 or when there are fewer than n |
| Context.Middle | src/claude_clone/core/context.py:121 | `messages[1:-n]`: empty for n = 0 or a list of at most n + 1 messages, otherwise everything between the first message and the last n |
| Context.MiddleTailSplit | src/claude_clone/core/context.py:117-122 | the first message, the middle and the tail partition the list; with a count of 0 the middle is empty |
| Context.SummarizeConversation | src/claude_clone/core/context.py:93-158 | short conversations and `keep_recent` 0 stay as they are, with no request; otherwise one summary request over the middle messages is made, and the result is the system message, the summary, then the last `2 * keep_recent` messages; it is never longer than the input |
| Context.SummaryMessage | src/claude_clone/core/context.py:152-156 | a system message whose content is the opening marker, the summary verbatim, then the closing marker |
| Context.CompactionKeepsEnds | src/claude_clone/core/context.py:113-158 | the compacted conversation keeps the system message and the recent messages verbatim, and those together with what was summarised make up the original |
| Extractor.Scan | src/claude_clone/llm/ollama_provider.py:49-78 | the scan stops just past a closing brace, within the text |
| Extractor.BalancedEnd | src/claude_clone/llm/ollama_provider.py:38-78 | a match starts at an opening brace and ends just past a closing brace |
| Extractor.FindBalancedJson | src/claude_clone/llm/ollama_provider.py:38-78 | the scanner returns the balanced object and the index past it, or `(None, -1)` when there is none |
| Extractor.ScanFindsFirstClose | src/claude_clone/llm/ollama_provider.py:49-78 | the scan stops at the first closing brace that brings the depth back to 0 |
| Extractor.BalancedEndFirstClose | src/claude_clone/llm/ollama_provider.py:49-78 | a match ends at the first `}` read outside a string at depth 1; the depth stays positive before it, so braces in strings or escaped do not end it |
| Extractor.UnterminatedNoMatch | src/claude_clone/llm/ollama_provider.py:40-78 | an object gives no match exactly when no later brace closes it |
| Extractor.ScanWithin | src/claude_clone/llm/ollama_provider.py:49-78 | the scan depends only on the text up to where it stops |
| Extractor.MatchIsBalanced | src/claude_clone/llm/ollama_provider.py:38-78 | the matched string is itself balanced: scanning it alone matches all of it |
| Extractor.BraceInStringExample | src/claude_clone/llm/ollama_provider.py:62-70 | a `}` inside a string does not end the match |
| Extractor.EscapedQuoteExample | src/claude_clone/llm/ollama_provider.py:52-63 | an escaped quote does not end the string |
| Extractor.NestedObjectExample | src/claude_clone/llm/ollama_provider.py:65-70 | a nested object does not end the outer one |
| Extractor.UnterminatedExample | src/claude_clone/llm/ollama_provider.py:49-78 | an object that never closes gives no match |
| Extractor.InOrderTail | src/claude_clone/llm/ollama_provider.py:80-100 | the spans after the first of some ordered spans are ordered after it |
| Extractor.InOrderCons | src/claude_clone/llm/ollama_provider.py:80-100 | a span followed by ordered spans that start after it gives ordered spans |
| Extractor.CallsThen | src/claude_clone/llm/ollama_provider.py:80-100 | calls found one after the other keep their correspondence with spans |
| Extractor.FirstPassSound | src/claude_clone/llm/ollama_provider.py:80-100 | the first pass reports only accepted call objects, each with its span, in text order and not nested |
| Extractor.FirstPassStep | src/claude_clone/llm/ollama_provider.py:82-100 | an accepted object is reported and skipped; anything else is passed over one character |
| Extractor.FirstPassComplete | src/claude_clone/llm/ollama_provider.py:80-100 | every accepted object is reported or lies inside a reported one |
| Extractor.FirstPassEmpty | src/claude_clone/llm/ollama_provider.py:80-100 | with no accepted object the first pass finds nothing |
| Extractor.SkipSpaces | src/claude_clone/llm/ollama_provider.py:106-109 | `\s*` stops within the text, at or after where it started |
| Extractor.SkipSpacesShape | src/claude_clone/llm/ollama_provider.py:106-109 | `\s*` consumes exactly a maximal run of whitespace |
| Extractor.PatternEnd | src/claude_clone/llm/ollama_provider.py:106-109 | a pattern match ends just past an opening brace |
| Extractor.PatternEndShape | src/claude_clone/llm/ollama_provider.py:106-109 | a match is the tool name, then whitespace, and in the parenthesised form only one `(`, then `{` |
| Extractor.FinditerBy | src/claude_clone/llm/ollama_provider.py:111-112 | reported matches lie within the text, each non-empty |
| Extractor.FinditerByMatches | src/claude_clone/llm/ollama_provider.py:111-112 | every reported span is a match, and no two overlap |
| Extractor.FinditerByComplete | src/claude_clone/llm/ollama_provider.py:111-112 | no match is skipped: every match start lies inside a reported match |
| Extractor.MatcherAdvances | src/claude_clone/llm/ollama_provider.py:106-112 | a pattern match always moves forward within the text |
| Extractor.Finditer | src/claude_clone/llm/ollama_provider.py:111-112 | `re.finditer`'s matches lie within the text |
| Extractor.FinditerMatches | src/claude_clone/llm/ollama_provider.py:106-112 | the reported matches are exactly where the pattern matches, left to right, none overlapping |
| Extractor.MatchesStep | src/claude_clone/llm/ollama_provider.py:111-129 | the calls of a list of matches are those of the first match, then those of the rest |
| Extractor.CallStyleNames | src/claude_clone/llm/ollama_provider.py:102-129 | every fallback call is named after a tool it looked for, with one span per call |
| Extractor.PatternsNames | src/claude_clone/llm/ollama_provider.py:111-129 | every call found for one tool is named after that tool |
| Extractor.MatchesNames | src/claude_clone/llm/ollama_provider.py:114-127 | every call of a pattern's matches is named after the tool |
| Extractor.MatchNeedsBrace | src/claude_clone/llm/ollama_provider.py:106-109 | a match needs an opening brace in the text |
| Extractor.NoBraceNoMatch | src/claude_clone/llm/ollama_provider.py:106-112 | text without `{` matches neither pattern |
| Extractor.NoBraceNoCallStyle | src/claude_clone/llm/ollama_provider.py:102-129 | text without `{` gives no fallback call |
| Extractor.Insert | src/claude_clone/llm/ollama_provider.py:133 | insertion adds exactly the element |
| Extractor.InsertSorted | src/claude_clone/llm/ollama_provider.py:133 | inserting into sorted spans keeps them sorted |
| Extractor.SortSpans | src/claude_clone/llm/ollama_provider.py:133 | `sorted(matches)` is a permutation of the matches |
| Extractor.SortSpansSorted | src/claude_clone/llm/ollama_provider.py:133 | ... in `(start, end)` order |
| Extractor.Reverse | src/claude_clone/llm/ollama_provider.py:133 | `reversed` lists the spans last to first |
| Extractor.SortInOrder | src/claude_clone/llm/ollama_provider.py:133 | spans already in text order are left as they are by sorting |
| Extractor.RemoveAllReverse | src/claude_clone/llm/ollama_provider.py:133-134 | cutting the reversed spans first to last is cutting the spans last to first |
| Extractor.RemoveAllGaps | src/claude_clone/llm/ollama_provider.py:131-135 | cutting ordered spans out last to first leaves exactly the text between them |
| Extractor.ReverseFront | src/claude_clone/llm/ollama_provider.py:133 | the reversal of a list ends with its first element |
| Extractor.CutAfterPrefix | src/claude_clone/llm/ollama_provider.py:134 | cutting a span keeps the text before it and the text after it |
| Extractor.RemovedIsGaps | src/claude_clone/llm/ollama_provider.py:131-135 | for spans in text order, what remains is the text between them |
| Extractor.FindCallObjects | src/claude_clone/llm/ollama_provider.py:80-100 | the first loop computes the first pass |
| Extractor.FindPatternCalls | src/claude_clone/llm/ollama_provider.py:111-129 | the loop over one pattern's matches computes their calls |
| Extractor.FindMatchCalls | src/claude_clone/llm/ollama_provider.py:111-129 | each match's object is decoded in turn; only objects become calls, and a `)` after a parenthesised call is part of its span |
| Extractor.FindToolCalls | src/claude_clone/llm/ollama_provider.py:105-129 | one tool's calls are found with the parenthesised pattern first, then the bare one |
| Extractor.FindCallStyle | src/claude_clone/llm/ollama_provider.py:102-129 | the fallback loops compute the fallback pass over the known tools in order |
| Extractor.CutSpans | src/claude_clone/llm/ollama_provider.py:131-135 | the removal loop cuts the sorted spans last to first |
| Extractor.ExtractJsonToolCall | src/claude_clone/llm/ollama_provider.py:14-139 | the fallback runs only when the first pass found nothing; with no call the text is returned untouched; otherwise the spans are cut out and the rest is stripped, an empty rest becoming `None` |
| Extractor.NoCallsKeepsContent | src/claude_clone/llm/ollama_provider.py:139 | with no call found, the content comes back unchanged |
| Extractor.NoBraceNoCall | src/claude_clone/llm/ollama_provider.py:80-139 | text without `{` holds no call and is returned unchanged |
| Extractor.FirstPassResult | src/claude_clone/llm/ollama_provider.py:80-137 | when the first pass finds objects, they are the calls, the fallback is not used, and the remaining text is the text between them, stripped |
| Extractor.FallbackNames | src/claude_clone/llm/ollama_provider.py:102-129 | when the first pass finds nothing, every call is named after a known tool |
| Text.Bound | src/claude_clone/tools/file_ops.py:61 | a normalised slice bound lies within the list |
| FileOps.WindowFromOffset | src/claude_clone/tools/file_ops.py:61 | from a non-negative offset the window is the lines from there on, at most `limit` of them |
| FileOps.NumberedBySpec | src/claude_clone/tools/file_ops.py:64-66 | window line k is rendered with number `first + k`, whatever the rendering |
| FileOps.Numbered | src/claude_clone/tools/file_ops.py:64-66 | one numbered line per selected line |
| FileOps.NumberedBy | src/claude_clone/tools/file_ops.py:64-66 | one rendered line per selected line, whatever the rendering |
| FileOps.NumberedSpec | src/claude_clone/tools/file_ops.py:64-66 | window line k is shown as `f"{first + k:6}\t{line}"` |
| FileOps.FormatLines | src/claude_clone/tools/file_ops.py:64-66 | the numbering loop numbers the selected lines from `offset + 1` |
| FileOps.ReadFile | src/claude_clone/tools/file_ops.py:30-82 | `read_file` gives the errors for a missing, non-regular or binary file; otherwise the numbered window with its header when needed, and the line count in the metadata |
| FileOps.ReadWholeFile | src/claude_clone/tools/file_ops.py:57-75 | reading a whole file from the top shows every line, numbered from 1, with no header |
| FileOps.ReadResult | src/claude_clone/tools/file_ops.py:41-77 | a read succeeds exactly on decodable text and then outputs the numbered window and reports the file's line count as `total_lines`; otherwise it fails with empty output |
| FileOps.MatchingSpec | src/claude_clone/tools/file_ops.py:193-196 | the similar-line numbers are exactly the lines containing the key, in increasing order |
| FileOps.SimilarInSpec | src/claude_clone/tools/file_ops.py:193-196 | the entries are the matching lines, cut to 80 characters, each with its number |
| FileOps.Similar | src/claude_clone/tools/file_ops.py:190-196 | with an empty first line there are no similar lines |
| FileOps.FindSimilar | src/claude_clone/tools/file_ops.py:190-196 | the loop collects the lines containing the stripped first line of the old content |
| FileOps.EditFile | src/claude_clone/tools/file_ops.py:164-229 | `edit_file` gives the errors for a missing, non-regular or binary file; otherwise it does what the corrected `EditOutcomeUnique` specifies, where the uniqueness test counts every position, overlapping ones included (see Findings and Left out) |
| FileOps.EditNotFound | src/claude_clone/tools/file_ops.py:188-205 | content that does not occur is refused with the not-found message, and nothing is written |
| FileOps.EditOutcome | src/claude_clone/tools/file_ops.py:187-229 | as written: the edit writes exactly when it succeeds, only when the old content occurs and `str.count` finds it at most once, and it then writes the text with the first occurrence replaced |
| FileOps.EditAmbiguous | src/claude_clone/tools/file_ops.py:207-213 | as written: content counted more than once is refused with its count, and nothing is written |
| FileOps.EditReplacesFirst | src/claude_clone/tools/file_ops.py:207-229 | as written: an edit that writes replaces the first occurrence and keeps the text before and after it |
| FileOps.OverlappingMatchAccepted | src/claude_clone/tools/file_ops.py:207-216 | as written: `"aa"` occurs at two positions of `"aaa"`, is counted once, and is replaced |
| FileOps.OnePosition | src/claude_clone/tools/file_ops.py:207-213 | a single counted position means no other position matches |
| FileOps.PositionsAtLeastOne | src/claude_clone/tools/file_ops.py:207-213 | a match is counted |
| FileOps.NoPositions | src/claude_clone/tools/file_ops.py:187-213 | no counted position means no match |
| FileOps.NoMatchNoPositions | src/claude_clone/tools/file_ops.py:187-213 | without a match no position is counted |
| FileOps.EditUniqueAmbiguous | src/claude_clone/tools/file_ops.py:207-213 | corrected: content found at several positions is refused with their number, and nothing is written |
| FileOps.EditUniqueWritesSingleMatch | src/claude_clone/tools/file_ops.py:207-229 | corrected: an edit writes only when the old content occurs at exactly one position, and it then replaces that occurrence |
| FileOps.UniqueWritten | src/claude_clone/tools/file_ops.py:207-216 | corrected: a written edit had the old content at one position at most, and the text written is the text before it, the new content, then the text after it |
| FileOps.SinglePosition | src/claude_clone/tools/file_ops.py:207-216 | corrected: found content with at most one counted position occurs nowhere but where `find` finds it |
| FileOps.OverlappingMatchRefused | src/claude_clone/tools/file_ops.py:207-216 | corrected: the overlapping example is refused |
| Json.StrList | src/claude_clone/llm/ollama_provider.py:336 | a list of strings as a JSON list, element by element |
| Messages.CallsOf | src/claude_clone/llm/ollama_provider.py:170-171 | a message carries calls exactly when its list is present and non-empty |
| Messages.OllamaCall | src/claude_clone/llm/ollama_provider.py:173-178 | one call in Ollama's format: exactly a `function` key holding exactly the name and the arguments |
| Messages.ToDict | src/claude_clone/llm/ollama_provider.py:168-181 | role and content always; `tool_calls` only for a non-empty list, one Ollama-format entry per call, in order; the tool call id is never sent |
| Messages.CreateToolSchema | src/claude_clone/llm/ollama_provider.py:321-339 | the schema carries the name, description and parameters; `required` is the given list, or `[]` when it is missing |
| Plans.ValueInjective | src/claude_clone/core/plan.py:10-18 | different statuses have different values |
| Plans.StepToDict | src/claude_clone/core/plan.py:29-35 | a step's dictionary has exactly its three keys |
| Plans.StepsToDict | src/claude_clone/core/plan.py:75-82 | the steps become a list of their dictionaries, in order |
| Plans.StrsOfStrList | src/claude_clone/core/plan.py:29-35 | a list of strings reads back as itself |
| Plans.StepDictRoundTrip | src/claude_clone/core/plan.py:29-35 | a step's dictionary holds all of the step |
| Plans.NewSteps | src/claude_clone/core/plan.py:125-149 | a new plan has one step per input, in order |
| Plans.NewStepsPending | src/claude_clone/core/plan.py:125-149 | every new step is pending and keeps its given description and files, a missing one defaulting to `""` or `[]` |
| Plans.Icon | src/claude_clone/core/plan.py:60-65 | a status shows as one of four checkboxes, and an unknown status shows as pending |
| Plans.FileLines | src/claude_clone/core/plan.py:69-71 | one line per affected file |
| Plans.StepsLinesPrefix | src/claude_clone/core/plan.py:59-71 | the lines of the first k steps begin the lines of all steps |
| Plans.StepHeadAt | src/claude_clone/core/plan.py:59-67 | step k is numbered k + 1 and its line follows the lines of the earlier steps |
| Plans.FileLineAt | src/claude_clone/core/plan.py:69-71 | each file of a step follows that step's line, in order |
| Plans.StepsLineCount | src/claude_clone/core/plan.py:59-71 | the steps take one line each plus one per affected file |
| Plans.Markdown | src/claude_clone/core/plan.py:47-73 | the markdown opens with the `# Plan: {goal}` line |
| Plans.Plan.constructor | src/claude_clone/core/plan.py:38-45 | a plan holds its goal, steps, status and creation time |
| Plans.Plan.FormatStep | src/claude_clone/core/plan.py:60-71 | one step's lines are its numbered line and then its files |
| Plans.Plan.ToMarkdown | src/claude_clone/core/plan.py:47-73 | the heading block, then the steps, joined by newlines |
| Plans.Plan.ToDict | src/claude_clone/core/plan.py:75-82 | the dictionary has exactly the keys goal, steps, status and created_at, holding the goal, the step dictionaries, the status value and the ISO creation time |
| Plans.ToolGate | src/claude_clone/core/plan.py:238-263 | outside plan mode every tool runs; inside it exactly the read-only tools do, never writes, edits, shell commands or commits |
| Plans.PlanManager.IsToolAllowed | src/claude_clone/core/plan.py:252-263 | every tool outside plan mode; inside it, exactly the read-only tools |
| Plans.ReadonlyToolsKnown | src/claude_clone/core/plan.py:238-250 | every read-only tool is one the agent knows |
| Plans.PlanManager.constructor | src/claude_clone/core/plan.py:100-105 | plan mode is off and there is no plan |
| Plans.PlanManager.StartPlanMode | src/claude_clone/core/plan.py:112-115 | plan mode on, and the plan discarded |
| Plans.PlanManager.EndPlanMode | src/claude_clone/core/plan.py:117-119 | plan mode off, and the plan kept |
| Plans.PlanManager.IsActive | src/claude_clone/core/plan.py:121-123 | reports the plan-mode flag |
| Plans.PlanManager.CreatePlan | src/claude_clone/core/plan.py:125-149 | a fresh plan awaiting approval, with the new steps and the given time, becomes the current plan; the mode flag is untouched |
| Plans.PlanManager.ApprovePlan | src/claude_clone/core/plan.py:151-161 | with a plan (any status) it is approved, keeping goal and steps, and plan mode ends; without one nothing changes and false is returned |
| Plans.PlanManager.RejectPlan | src/claude_clone/core/plan.py:163-174 | with a plan it is marked rejected and dropped, and plan mode ends, while the dropped plan keeps its goal, steps and creation time; without one nothing changes and false is returned |
| Plans.PlanManager.GetPlan | src/claude_clone/core/plan.py:176-178 | returns the current plan, or none |
| Plans.PlanManager.HasPendingPlan | src/claude_clone/core/plan.py:180-185 | true exactly when there is a plan and it awaits approval |
| Plans.PlanManager.MarkStep | src/claude_clone/core/plan.py:187-213 | with a plan and an index in range, only that step's status changes; otherwise nothing changes and false is returned |
| Plans.PlanManager.MarkStepInProgress | src/claude_clone/core/plan.py:187-199 | the step at an index in range becomes in progress, and nothing else changes |
| Plans.PlanManager.MarkStepCompleted | src/claude_clone/core/plan.py:201-213 | the step at an index in range becomes completed, and nothing else changes |
| Plans.PlanManager.SavePlan | src/claude_clone/core/plan.py:215-235 | no plan is an error; otherwise the file is `{plan_id}.md`, with the id defaulting to the time when it is absent or empty, and holds the plan's markdown |
| PlanTool.FirstUndescribed | src/claude_clone/tools/plan.py:78-80 | the first step without a non-empty description, or none when every step has one |
| PlanTool.Execute | src/claude_clone/tools/plan.py:59-97 | an empty plan and the first undescribed step are refused and the manager is untouched; otherwise the manager's new plan's markdown and footer are the output |
| PlanTool.AcceptedStepsDescribed | src/claude_clone/tools/plan.py:78-83 | every step of an accepted plan has its given, non-empty description |
| Provider.RawContent | src/claude_clone/llm/ollama_provider.py:253-256 | the reply text is present only when it is non-empty |
| Provider.ParseReply | src/claude_clone/llm/ollama_provider.py:248-305 | the text extractor rewrites a reply only when it is final, has text and has no native calls; text without `{` is never rewritten |
| Provider.ParseChunk | src/claude_clone/llm/ollama_provider.py:248-278 | a chunk that is not the last one, or one with native calls, is returned as read |
| Provider.ParseResponse | src/claude_clone/llm/ollama_provider.py:280-305 | a whole response is final; the extractor applies when it has text and no native calls |
| Provider.ReplyTextConcat | src/claude_clone/core/agent.py:62-76 | a reply's text is assembled chunk by chunk, whatever the split into chunks |
| Provider.ReplyCallsConcat | src/claude_clone/core/agent.py:62-76 | a reply's calls are gathered chunk by chunk, whatever the split into chunks |
| Provider.CollectReply | src/claude_clone/core/agent.py:62-76 | the accumulation loop gathers the reply's text and calls |
| Registry.ToolRegistry.constructor | src/claude_clone/tools/registry.py:11-12 | a new registry is empty |
| Registry.ToolRegistry.Register | src/claude_clone/tools/registry.py:14-16 | the tool is stored under its name; a known name keeps its place and a new one goes last |
| Registry.ToolRegistry.Get | src/claude_clone/tools/registry.py:18-20 | a tool is found exactly when its name is registered |
| Registry.ToolRegistry.GetAll | src/claude_clone/tools/registry.py:22-24 | one tool per name, in first-registration order |
| Registry.ToolRegistry.GetSchemas | src/claude_clone/tools/registry.py:26-28 | each tool's schema, in the same order, carrying its name |
| Registry.ToolRegistry.Execute | src/claude_clone/tools/registry.py:30-39 | an unknown name fails without running anything; a raising tool becomes a failure naming the exception; otherwise the tool's result is returned |
| Registry.ToolRegistry.RegisterAll | src/claude_clone/tools/registry.py:41-84 | registering the tools one after the other gives the stored tools and key order that `Stored` and `Ordered` describe |
| Registry.ToolRegistry.RegisterDefaultTools | src/claude_clone/tools/registry.py:41-84 | the fifteen defaults are added under their names and replace same-named tools; other tools stay; names keep their place, and an empty registry ends up in the default order |
| Registry.NamesOf | src/claude_clone/tools/registry.py:41-84 | the names of the tools, in order |
| Registry.StoredSpec | src/claude_clone/tools/registry.py:14-16 | registering distinctly named tools adds exactly their names, stores each under its name, and leaves the others alone |
| Registry.OrderedExtends | src/claude_clone/tools/registry.py:14-16 | registering never moves or drops a name already in the order |
| Registry.OrderedFromEmpty | src/claude_clone/tools/registry.py:14-16 | distinctly named tools registered into an empty registry are ordered as given |
| Registry.DefaultNamesDistinct | src/claude_clone/tools/registry.py:41-84 | no default tool is registered twice |
| Registry.DefaultToolsAreKnown | src/claude_clone/llm/ollama_provider.py:32-36 | the default tools are exactly the names the text extractor's fallback looks for |
| Session.MessageToDict | src/claude_clone/core/session.py:41-52 | role and content always; `tool_calls` only for a non-empty list, one name/arguments record per call, in order |
| Session.DictToMessage | src/claude_clone/core/session.py:54-66 | a record without `role` or `content` does not load; a loaded message has the stored role and content, no tool call id, and calls only from a non-empty stored list, one per record |
| Session.CallFromDict | src/claude_clone/core/session.py:57-61 | a stored call reads back with the stored name and arguments |
| Session.CallsFromList | src/claude_clone/core/session.py:57-61 | the stored calls read back one per record |
| Session.CallsRoundTrip | src/claude_clone/core/session.py:41-66 | storing calls and reading them back gives the calls |
| Session.MessageRoundTrip | src/claude_clone/core/session.py:41-66 | storing and reading back a message keeps its role, content and non-empty call list; an empty list comes back as `None`, and the tool call id is lost |
| Session.MessageRoundTripExact | src/claude_clone/core/session.py:41-66 | a message without a tool call id or an empty call list comes back exactly |
| Session.TitleFrom | src/claude_clone/core/session.py:95 | at most 50 characters of the content, with `...` when there were more |
| Session.Title | src/claude_clone/core/session.py:91-96 | `New conversation` when no message is from the user; otherwise the title made from the first user message |
| Session.FirstUser | src/claude_clone/core/session.py:93-96 | the position of the first user message, or none when there is none |
| Session.SessionTitle | src/claude_clone/core/session.py:91-96 | the title is taken from the first user message, or is `New conversation` when there is none |
| Session.FirstUserUnique | src/claude_clone/core/session.py:93-96 | any user message with no user message before it is the one the search finds |
| Session.MetadataOf | src/claude_clone/core/session.py:163-178 | a session file is listed exactly when it is valid JSON with an `id` |
| Session.Collected | src/claude_clone/core/session.py:160-178 | at most one entry per file, and one for every file when every file is readable |
| Session.LessTransitive | src/claude_clone/core/session.py:180-181 | string order is transitive ... |
| Session.LessTotal | src/claude_clone/core/session.py:180-181 | ... total and asymmetric |
| Session.NotOlderTransitive | src/claude_clone/core/session.py:180-181 | being at least as new is transitive |
| Session.PrependNewest | src/claude_clone/core/session.py:180-181 | a session no older than the head of a newest-first list can go in front of it |
| Session.RestNewest | src/claude_clone/core/session.py:180-181 | the tail of a newest-first list is newest first, and its head is at least as new as the rest |
| Session.InsertSpec | src/claude_clone/core/session.py:180-181 | inserting keeps the order and adds exactly the session |
| Session.Insert | src/claude_clone/core/session.py:181 | inserting adds one session |
| Session.SortNewestFirst | src/claude_clone/core/session.py:181 | the sort keeps the number of sessions; `SortSpec` gives the order and the permutation |
| Session.SortSpec | src/claude_clone/core/session.py:180-181 | the sort gives the same sessions, newest first |
| Session.Head | src/claude_clone/core/session.py:183 | `xs[:limit]` is the first `limit` of them; a negative limit drops that many from the end |
| Session.ListSessions | src/claude_clone/core/session.py:150-183 | the listing is the readable sessions, sorted newest first, cut at `limit` |
| Session.ListingSpec | src/claude_clone/core/session.py:150-183 | the listing is newest first and holds only readable sessions, each at most once, and all of them when the limit allows |
| Session.GetLastSessionId | src/claude_clone/core/session.py:193-196 | no id exactly when no session is readable; otherwise the id of a session no other is newer than |
| Todo.Icon | src/claude_clone/tools/todo.py:61-74 | only pending, in progress and completed statuses have an icon |
| Todo.LinesSpec | src/claude_clone/tools/todo.py:61-74 | the display lines exist exactly when every status is known, and are then icon and content, item by item; otherwise the error names the first unknown status |
| Todo.Display | src/claude_clone/tools/todo.py:61-74 | empty for an empty list; a display exists exactly when every status is known; otherwise the `KeyError` names the first unknown status |
| Todo.CountStatusSpec | src/claude_clone/tools/todo.py:53-59 | the count is the number of items with exactly that status |
| Todo.PendingPlusCompleted | src/claude_clone/tools/todo.py:53-59 | pending and completed items are never more than all items |
| Todo.ActiveIndex | src/claude_clone/tools/todo.py:46-51 | the first in-progress item, or none when no item is |
| Todo.SummaryEnds | src/claude_clone/tools/todo.py:145-151 | the summary opens with a blank line and ends with the active item's form, or with ` pending` when no item is active |
| Todo.TodoManager.constructor | src/claude_clone/tools/todo.py:27-31 | a new manager has an empty list |
| Todo.TodoManager.Update | src/claude_clone/tools/todo.py:38-40 | the list is replaced as a whole |
| Todo.TodoManager.GetTodos | src/claude_clone/tools/todo.py:42-44 | returns the whole list |
| Todo.TodoManager.GetPendingCount | src/claude_clone/tools/todo.py:53-55 | the number of items whose status is exactly `pending` |
| Todo.TodoManager.GetCompletedCount | src/claude_clone/tools/todo.py:57-59 | the number of items whose status is exactly `completed` |
| Todo.TodoManager.GetActive | src/claude_clone/tools/todo.py:46-51 | the item returned is the first in progress; none exactly when no item is in progress |
| Todo.TodoManager.FormatDisplay | src/claude_clone/tools/todo.py:61-74 | the display loop builds the display, and stops at the first unknown status |
| Todo.LinesAfterError | src/claude_clone/tools/todo.py:61-74 | once a prefix raises, the whole list raises the same error |
| Todo.MissingKey | src/claude_clone/tools/todo.py:131-138 | an entry is complete exactly when it has all three keys |
| Todo.FirstMissing | src/claude_clone/tools/todo.py:131-138 | no key is missing exactly when every entry is complete; otherwise it is the missing key of the first incomplete entry, the one Python raises on |
| Todo.Items | src/claude_clone/tools/todo.py:131-138 | one item per entry, built from its three fields |
| Todo.Execute | src/claude_clone/tools/todo.py:127-158 | a missing key fails before the list is touched; otherwise the list is replaced, and an unknown status then fails with the same message; else the output is the display and the summary |
| Todo.UnknownStatusStoredThenFails | src/claude_clone/tools/todo.py:139-156 | a complete entry set with an unknown status replaces the list and fails, naming the first unknown status |
| Tokens.Count | src/claude_clone/core/tokens.py:28-39 | the empty text costs no tokens |
| Tokens.CountMessage | src/claude_clone/core/tokens.py:41-65 | the loop counts 4 tokens, the content, and each call's name, arguments and 4 tokens |
| Tokens.CountMessages | src/claude_clone/core/tokens.py:67-79 | the loop counts 3 tokens plus each message |
| Tokens.CallsCostAtLeast | src/claude_clone/core/tokens.py:59-63 | every tool call costs at least 4 tokens |
| Tokens.MessageCost | src/claude_clone/core/tokens.py:41-65 | a message costs at least 4 tokens plus 4 per call it carries |
| Tokens.MessagesSumAtLeast | src/claude_clone/core/tokens.py:76-78 | the messages of a list cost at least 4 tokens each |
| Tokens.ListCost | src/claude_clone/core/tokens.py:67-79 | the empty conversation costs 3 tokens, and every message adds at least 4 |
| Tokens.MessagesSumConcat | src/claude_clone/core/tokens.py:67-79 | message costs add up over concatenation |
| Tokens.ListCostConcat | src/claude_clone/core/tokens.py:67-79 | two lists side by side cost their sum less one list overhead |
| Tokens.AppendCost | src/claude_clone/core/tokens.py:67-79 | appending a message adds exactly its cost, so at least 4 plus 4 per call |
| Text.ContainsIffCounted | src/claude_clone/tools/file_ops.py:187-213 | `old in content` holds exactly when `content.count(old) >= 1` |
| Text.CountFromPositive | src/claude_clone/tools/file_ops.py:207-213 | the count is positive exactly when the pattern occurs |
| Text.JoinPieces | src/claude_clone/tools/file_ops.py:57-68 | joining the newline-separated pieces with newlines gives the text back |

## Left out

- File-system I/O is left out: `exists`, `is_file`, `read_text`, `write_text`, `mkdir`, `glob`, `json.load` and `json.dump`. What reading produced is a parameter, and what would be written is returned.
- Floating point is left out: the usage percentage, `is_high`/`is_critical`, and temperatures. The compaction threshold fraction is a rational `num / den`.
- Clocks and generated ids (`datetime.now`) are parameters.
- Module-level singletons are explicit instances.
- JSON values of the wrong type where the code expects a string are not modelled: a non-string tool name in a recognised object, non-string todo fields, a non-string `id` in a session file, or a non-list value where `len` is taken. The model reads them as absent, as `0`, or as the default, where Python would raise `TypeError` or store the odd value.
- A shell `command` argument that is not a string reads as `""` (`AgentLoop.CommandOf`). Python would raise on `.split()`.
- `splitlines` is modelled on `'\n'` only. Other line terminators are not modelled.
- `upper` is modelled on ASCII only.
- The `repr` quoting of a `KeyError` key that itself contains quotes is not modelled.
- The generic exception handlers are not modelled: "Failed to update todos", "Failed to create plan", "Error reading file", "Error editing file", and `PermissionError`.
- The `write_file` tool is not part of this model.
- `delete_session`, `load_session` and the record writing of `save_session` are not part of this model. Only the title logic is modelled.
- `switch_model`, `list_models`, `check_connection` and the chat `ResponseError` path are left out, because they are transport details.
- Native tool calls are taken as already decoded. The `json.loads` of string arguments inside them is not modelled.
- The tool descriptions and parameter schemas that `register_default_tools` builds are left out. Only the names and their order are modelled.
- Session.SortNewestFirst: sort stability is part of the definition, but it is not stated as a lemma.
- Plans.PlanManager.MarkStep: steps are values, so aliasing of `PlanStep` objects is not modelled.
- Context.SummarizeConversation: `keep_recent` is a `nat`, so negative values are not modelled.
- Context.GetUsage: a window of `max_tokens == 0` makes the percentage `used / self.max_tokens` raise `ZeroDivisionError` (src/claude_clone/core/context.py:72); the model leaves the percentage out and returns the report.
- Session.MetadataOf: a session file holding valid JSON that is not an object (a list, a string, a number, `null`) makes `data["id"]` raise `TypeError`, which `list_sessions` does not catch, so listing raises; such a file cannot be represented, since what `json.load` made of a file is `Option<map<string, Json>>`. The same holds for `Session.Collected`, `Session.ListSessions` and `Session.GetLastSessionId`.
- Session.DictToMessage: a truthy `tool_calls` value that is not a list (a string, an object, a number) makes the comprehension raise `TypeError`; the model reports it as `None`, the same outcome as a missing `role` or `content`.
- FileOps.EditFile: the method implements the corrected uniqueness test of the Findings table (`EditOutcomeUnique`, every position counted), not the `content.count(old_content)` of src/claude_clone/tools/file_ops.py:208. On overlapping matches such as content `"aaa"` with old content `"aa"` it refuses with "Found 2 occurrences", where the source writes `"ba"`. The behaviour as written is `FileOps.EditOutcome`.
- Interrupt handling, the UI, the CLI, and the git, shell, search and web tools are not part of this model.

## Findings

| source | as written | input that shows it | evidently intended | confidence | as-written member | corrected member |
|---|---|---|---|---|---|---|
| src/claude_clone/tools/file_ops.py:207-216 | the uniqueness test uses `str.count`, which counts non-overlapping matches, so overlapping matches pass it and the first one is replaced | content `"aaa"`, old content `"aa"`: two positions match, the count is 1, and the file becomes `"ba"` | replace only when the old content matches at exactly one position | medium; not executed | FileOps.OverlappingMatchAccepted | FileOps.EditUniqueWritesSingleMatch |
