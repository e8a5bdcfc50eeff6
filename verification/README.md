# Verified model of the agent machinery

The backend lets a language model call tools and write documents. The model and the tools are outside parties that may
answer anything; the code around them must still end, keep a well-formed conversation, stay inside its size budgets and
publish numbers that agree. This project models that deterministic code in Dafny and proves what it promises.

- **The tool-calling loop** (`Runtime`, `ToolOrder`, `RunTheorems`, `RunStory`, `RuntimeLoop`). The model, the tool handlers and the
  completion order of the thread pool are arbitrary functions of an environment. `Runtime` is the loop as a function from
  configuration, environment and messages to a result; `RunTheorems` proves facts about every result and `RunStory` tells
  every run from the model's answers alone; `RuntimeLoop` is the loop as a class that appends to its conversation and
  trace, proved to compute that function.
- **Reading the trace back** (`TraceReadback`, `TraceSummary`): the records and the counters two other files derive from
  the trace agree with the calls that were executed.
- **Size budgets** (`Json`, `Text`, `Observation`, `ObservationMeta`, `ContextBudget`, `DataQuality`, `PublicItem`).
  JSON trees have an exact serialised form: the escapes of section 7 of RFC 8259 and Python's default separators, without ASCII escaping.
- **Sanitisers and merging** (`RunReplay`, `ReplayMasking`, `ReplaySnapshot`, `FailureMining`).
- **Output normalisers** (`Rounding`, `ScoreDetail`, `DecisionOutput`, `ReviewOutput`, `JudgeResult`), over exact reals
  with Python's half-to-even rounding as a function onto a grid.
- **Trade selection** (`TradeSelection`) and the **session token** (`SessionToken`) with base64url of section 5 of RFC
  4648; the decoder is the lenient one of Python's `binascii`, which skips characters outside the alphabet.

Where the source works step by step, a class or a method with loops follows it and is tied to a function; the lemmas are
about the function.

Statements that fail for the code, each with its exact condition or a concrete witness:

- Request order is restored only for ids that are distinct and, but for the last, present (`ToolOrder.OrderRestoredIff`).
- Of two calls that share an id inside a batch the first is recorded with the arguments of the second
  (`TraceReadback.BatchReadBackIff`, `TraceReadback.SharedIdMixesArguments`).
- The size a cut observation reports is right only between 1000 and 9999 (`Observation.ReportedSizeExact`,
  `ObservationMeta.ReportsTooLittle`), and the truncation flag can be raised for an observation sent whole
  (`ObservationMeta.FlagExact`, `ObservationMeta.FlagMisses`).
- A `data_quality` section can end above its default budget of 2000, at 2072 for one payload and never above 2096
  (`DataQuality.OverBudgetIff`, `DataQuality.OverBudgetExample`).
- The decision normaliser is not always a fixed point (`DecisionOutput.SecondRun`, `DecisionOutput.PositionMoves`,
  `DecisionOutput.StepMoves`), nor is the judge's (`JudgeResult.SecondRun`, `JudgeResult.UnnamedMoves`).
- An open BUY review can be published with 0 (`ReviewOutput.OpenBuyZero`).
- The second pass over a replay snapshot masks the token counts and the token limit it was built with
  (`RunReplay.SanitizeFixedPoint`, `ReplaySnapshot.TokenCountsMasked`, `ReplaySnapshot.SnapshotNeverSurvives`).

## Model

| member | source | states |
|---|---|---|
| `RunTheorems.RunStopsWell` | ibkr_show_backend/app/agents/runtime.py:82-276 | For every model, tool set and completion order a run ends within max_rounds + 1 model attempts (3 when max_rounds is 1, 1 when it is 0 or less); it never raises either "did not produce JSON" error; what it returns is a trace and a message list that are exactly those of one history of events and batches, where a batch the model asked for ran before the last round and carried exactly the calls of its assistant message, and only tools the loop was given succeed |
| `RunStory.RunFollowsModel` | ibkr_show_backend/app/agents/runtime.py:127-276 | Told from the answers of the model alone: which rounds go on, which batch each of them runs, which event each leaves in the trace, in which round and after how many attempts the run ends, and what it publishes or raises; and every tool result is the one the handler gave at that place |
| `RunStory.AnswerFromModel` | ibkr_show_backend/app/agents/runtime.py:192-276 | A run that returns publishes the content of the last attempt: an answer of the model that asked for no tools, or a synthesis |
| `RunStory.RequestsFromModel` | ibkr_show_backend/app/agents/runtime.py:192-263 | Every requested batch stems from the answer of its own round, before the last; the batches come in the order of the attempts; in a run that returns every request before the last round was run |
| `RunTheorems.ForcedOnly` | ibkr_show_backend/app/agents/runtime.py:127-276 | The fall-through to the forced final answer is taken when max_rounds <= 0, and otherwise only when the single round was spent on the default plan; in that configuration a run that does not fall through has raised |
| `RunTheorems.TranscriptShaped` | ibkr_show_backend/app/agents/runtime.py:192-263 | Every assistant message the loop appends carries calls and is followed at once by exactly one tool message per call: the ids are a permutation of the calls, and in call order when the ids allow it |
| `RunTheorems.ReturnedMessagesShaped` | ibkr_show_backend/app/agents/runtime.py:192-263 | The returned list is the caller's messages, a protocol-shaped exchange and one answer without tool calls, with the private reasoning removed everywhere |
| `RunTheorems.ToolMessagesAnswer` | ibkr_show_backend/app/agents/runtime.py:247-263 | The tool messages of a batch answer its calls: as many, same ids, in request order whenever the ids allow it |
| `Runtime.SyntheticMessages` | ibkr_show_backend/app/agents/runtime.py:610-624 | A default plan is reported as its introduction and, for every execution in order, the tool name and the serialised observation |
| `Runtime.FallbackCalls` | ibkr_show_backend/app/agents/runtime.py:653-668 | Every planned call keeps its name and arguments and gets its numbered id |
| `ToolOrder.OrderRestoredIff` | ibkr_show_backend/app/agents/runtime.py:414-464 | The sort puts executions back in request order for every completion order if and only if the ids are pairwise distinct (missing ones numbered) and none but the last is missing |
| `ToolOrder.ReturnedIsPermutation` | ibkr_show_backend/app/agents/runtime.py:414-464 | Whatever the ids, the executions returned are a permutation of the batch: none lost, none twice |
| `ToolOrder.ReturnedInRequestOrder` | ibkr_show_backend/app/agents/runtime.py:462-464 | Under that condition the list returned is the batch in request order |
| `ToolOrder.FallbackOrderKept` | ibkr_show_backend/app/agents/runtime.py:653-668 | Batches built from a default plan always meet the condition, since `fallback-{index}-{name}` is injective in the index |
| `StableSort.RestoresRange` | ibkr_show_backend/app/agents/runtime.py:462-464 | A stable sort by a strictly increasing key turns every permutation of 0..n-1 back into 0..n-1 |
| `StableSort.SwapNotRestored` | ibkr_show_backend/app/agents/runtime.py:462-464 | If two neighbours' keys do not increase, swapping the two is a permutation the sort does not undo |
| `Runtime.RunTool` | ibkr_show_backend/app/agents/runtime.py:466-492 | A tool execution always yields a record under its own id, name and arguments; it is ok if and only if the tool is known, its handler returned, and the output does not say `ok: false` |
| `Observation.StripRemovesPayload` | ibkr_show_backend/app/agents/runtime.py:582-593 | No `engine_payload` key survives at any depth |
| `Observation.StripKeepsTheRest` | ibkr_show_backend/app/agents/runtime.py:582-593 | A tree without such a key is sent unchanged |
| `Observation.StripFieldByField` | ibkr_show_backend/app/agents/runtime.py:582-593 | Stripping goes field by field: payloads vanish, every other field keeps its key and place, with its value stripped |
| `Observation.StripShorter` | ibkr_show_backend/app/agents/runtime.py:582-593 | Stripping never makes the JSON text longer, and shortens it exactly when there was a payload |
| `Observation.SerializeBound` | ibkr_show_backend/app/agents/runtime.py:566-580 | An observation within the limit is sent as it is; otherwise its text is at most 2 max(200, limit - 300) plus a fixed frame plus the digits of the two reported sizes |
| `Observation.CutSays` | ibkr_show_backend/app/agents/runtime.py:566-580 | A cut observation says that it was cut, the length it had, the reported size, and the front of the text up to white space |
| `ObservationMeta.ObservationSays` | ibkr_show_backend/app/agents/runtime.py:250-262 | An observation holds the ok flag, tool, arguments and output of its execution |
| `ObservationMeta.FinishSays` | ibkr_show_backend/app/agents/runtime.py:439-460 | A finish or error event names its own call, and the sizes before stripping and as sent |
| `Observation.ReportedSizeExact` | ibkr_show_backend/app/agents/runtime.py:566-580 | For every text and limit: the reported `final_size` is 192 plus the digits of the text length plus the escaped preview; the real one differs by the digits of that number less four; they agree if and only if it has four digits, and it is too small from 10000 on |
| `Observation.DefaultReportsTooLittle` | ibkr_show_backend/app/agents/runtime.py:566-580 | Under the default limit of 12000 a cut observation whose preview keeps 9803 characters reports less than its real size |
| `ObservationMeta.ReportsTooLittle` | ibkr_show_backend/app/agents/runtime.py:566-580 | A concrete one: a tool result of 12000 letters |
| `ObservationMeta.FlagExact` | ibkr_show_backend/app/agents/runtime.py:595-608 | A cut observation is always flagged; the flag is right under every limit if and only if neither arguments nor output of the execution hold an engine payload |
| `ObservationMeta.FlagMisses` | ibkr_show_backend/app/agents/runtime.py:595-608 | A tool result that is one engine payload of 12000 letters is sent whole, in 54 characters, under the default limit, yet flagged as truncated |
| `RuntimeLoop.ToolCallingRuntime.SubmitAll` | ibkr_show_backend/app/agents/runtime.py:421-437 | Submission logs one start event per call and stops at the first call whose arguments are no JSON object |
| `RuntimeLoop.ToolCallingRuntime.Collect` | ibkr_show_backend/app/agents/runtime.py:439-460 | Collecting logs one finish event per call and fills the list in completion order |
| `RuntimeLoop.ToolCallingRuntime.ExecutionOrder` | ibkr_show_backend/app/agents/runtime.py:462-463 | The dict built from the ids holds the last position of each, and a missing id sorts after all of them |
| `RuntimeLoop.ToolCallingRuntime.RunPool` | ibkr_show_backend/app/agents/runtime.py:421-460 | The pool phase logs exactly the events of the batch and returns its executions in completion order |
| `RuntimeLoop.ToolCallingRuntime.ExecuteToolCalls` | ibkr_show_backend/app/agents/runtime.py:414-464 | The whole method leaves the state, and returns the executions, of the specification's batch; it raises exactly on a malformed call |
| `RuntimeLoop.ToolCallingRuntime.RunDefaultPlan` | ibkr_show_backend/app/agents/runtime.py:610-624 | A default plan runs as a batch and its results enter the conversation as one introduction and one user message per result |
| `RuntimeLoop.ToolCallingRuntime.SynthesizeWithoutTools` | ibkr_show_backend/app/agents/runtime.py:320-373 | One more attempt without tools, with its events, as specified |
| `RuntimeLoop.ToolCallingRuntime.ForceFinalAnswer` | ibkr_show_backend/app/agents/runtime.py:375-412 | The final call after the loop gives the specified result and attempt count |
| `RuntimeLoop.ToolCallingRuntime.AskModel` | ibkr_show_backend/app/agents/runtime.py:127-191 | Opening a round and asking the model, with the announcement of the last round and the retry without tools, reaches the specified state |
| `RuntimeLoop.ToolCallingRuntime.AppendToolMessages` | ibkr_show_backend/app/agents/runtime.py:249-263 | Exactly one tool message per execution is appended, in the order of the executions |
| `RuntimeLoop.ToolCallingRuntime.RunRequested` | ibkr_show_backend/app/agents/runtime.py:247-263 | A requested batch appends its assistant message and its tool messages, and raises exactly on a malformed call |
| `RuntimeLoop.ToolCallingRuntime.PlayRound` | ibkr_show_backend/app/agents/runtime.py:127-263 | One turn of the loop either ends with the specified result or leaves the specified state |
| `RuntimeLoop.ToolCallingRuntime.Run` | ibkr_show_backend/app/agents/runtime.py:82-276 | The imperative loop returns the result, and makes the number of attempts, of the specification the theorems are about |
| `TraceReadback.RunReadBack` | ibkr_show_backend/app/agents/agent_run_trace.py:156-178 | Reading the trace of a run back gives one record per executed call, in completion order; all of them have their call's own tool, outcome and sanitised arguments if and only if every batch keeps its calls, as it does with ids distinct inside each batch; ids may repeat across batches |
| `TraceReadback.BatchReadBackIff` | ibkr_show_backend/app/agents/agent_run_trace.py:156-178 | One batch, by its requested calls: every record is the call's own if and only if the last call under each id has no arguments or the same sanitised ones, and lends no name to a call without one |
| `TraceReadback.ReadBatch` | ibkr_show_backend/app/agents/agent_run_trace.py:156-178 | Whatever the ids and whatever was read before, a batch adds exactly one record per call, paired with the last start of its batch under the same id |
| `TraceReadback.DistinctReadBack` | ibkr_show_backend/app/agents/agent_run_trace.py:156-178 | With ids distinct inside the batch that start is the call's own |
| `TraceReadback.SharedIdMixesArguments` | ibkr_show_backend/app/agents/agent_run_trace.py:156-178 | A batch the model may ask for in any run of two rounds or more: one tool twice under one id; both records read back the second call's arguments |
| `TraceReadback.ExtractToolCalls` | ibkr_show_backend/app/agents/agent_run_trace.py:156-178 | The loop with its dict of starts computes the records the theorems are about |
| `TraceReadback.FlattenKeepsRecords` | ibkr_show_backend/app/agents/agent_run_trace.py:207-221 | Flattening node traces and dropping other events loses no tool record |
| `TraceReadback.Sanitize` | ibkr_show_backend/app/agents/agent_run_trace.py:191-204 | Keys, their order and list lengths are preserved |
| `TraceReadback.SanitizeCleans` | ibkr_show_backend/app/agents/agent_run_trace.py:191-204 | No value under a sensitive key and no long text is left, at any depth |
| `TraceReadback.SanitizeMasks` | ibkr_show_backend/app/agents/agent_run_trace.py:191-204 | Value by value: secrets masked, text beyond 2000 characters cut to 1997 and three dots, everything else kept |
| `TraceReadback.SanitizeFixedPoint` | ibkr_show_backend/app/agents/agent_run_trace.py:191-204 | Exactly the clean trees pass unchanged, so a second pass changes nothing |
| `TraceSummary.SummaryAgrees` | ibkr_show_backend/app/agents/trace_summary.py:45-90 | On the trace of every run success + error = tools listed = calls executed, in order; `tool_call_count` exceeds the executed calls by exactly the failed ones; truncations are those flagged; `llm_rounds` is the number of rounds started |
| `TraceSummary.RoundsAgree` | ibkr_show_backend/app/agents/trace_summary.py:45-90 | A run that returns has finished every round it started, at most max_rounds of them |
| `TraceSummary.CountBatch` | ibkr_show_backend/app/agents/trace_summary.py:45-90 | What one batch adds to every counter |
| `TraceSummary.Summarize` | ibkr_show_backend/app/agents/trace_summary.py:45-90 | The counter loop computes the counters the theorems are about |
| `Text.TrimText` | ibkr_show_backend/app/agents/context_budget.py:42-48 | Text within the limit is kept; cut text is a prefix, without trailing white space, and three dots, at most limit characters in all; exactly the dots when the limit is 1 or 2, nothing when it is 0 or less |
| `PublicItem.CompactSmall` | ibkr_show_backend/app/agents/context_budget.py:62-84 | A compacted record has at most max_items fields, no long-text key, and only cut text and short lists below |
| `PublicItem.CompactShorter` | ibkr_show_backend/app/agents/context_budget.py:62-84 | A compacted record is never longer than the record |
| `PublicItem.ShortScalarKept` | ibkr_show_backend/app/agents/context_budget.py:62-84 | A short scalar under an ordinary key among the first max_items fields is kept as it is |
| `Json.ListSeparators` | ibkr_show_backend/app/agents/context_budget.py:58-59 | Lists print with Python's default separator |
| `Json.ObjectSeparators` | ibkr_show_backend/app/agents/context_budget.py:58-59 | Objects print with Python's default separators |
| `ContextBudget.ShrinkCuts` | ibkr_show_backend/app/agents/context_budget.py:620-627 | Every list of the result is a prefix of half the length (at least one element) with its elements cut in turn; a nonempty list is never emptied |
| `ContextBudget.ShrinkHalves` | ibkr_show_backend/app/agents/context_budget.py:620-627 | Every list becomes its front half, at least one element of it; everything else stays |
| `ContextBudget.ShrinkShorter` | ibkr_show_backend/app/agents/context_budget.py:620-627 | Halving lists never lengthens the JSON text, and shortens it as soon as anything is cut |
| `ContextBudget.NothingMissing` | ibkr_show_backend/app/agents/context_budget.py:620-627 | Nothing is counted as dropped exactly when nothing was cut |
| `ContextBudget.MissingIsDifference` | ibkr_show_backend/app/agents/context_budget.py:620-627 | However a tree was cut, the account is the number of elements its surviving lists held before less the number they hold now |
| `ContextBudget.ShrinkAccount` | ibkr_show_backend/app/agents/context_budget.py:187-209 | In the final report `runtime_list_shrink` has grown by exactly the elements the surviving lists lost when the lists were halved, and no other entry of the account has moved |
| `ContextBudget.Ledger.ShrinkLists` | ibkr_show_backend/app/agents/context_budget.py:620-627 | The walk that cuts and counts at once returns the cut tree, and the shared dict grows by the elements its surviving lists lost |
| `ContextBudget.TrimFixedPoint` | ibkr_show_backend/app/agents/context_budget.py:630-640 | Exactly the trees whose strings fit are left alone, and the result is such a tree |
| `ContextBudget.TrimCutsStrings` | ibkr_show_backend/app/agents/context_budget.py:630-640 | Every string is cut on its own, and nothing else is touched |
| `ContextBudget.TrimShorter` | ibkr_show_backend/app/agents/context_budget.py:630-640 | Cutting strings never lengthens the JSON text, escapes included |
| `ContextBudget.NothingAltered` | ibkr_show_backend/app/agents/context_budget.py:630-640 | No string is counted as cut exactly when none was |
| `ContextBudget.Ledger.TrimStrings` | ibkr_show_backend/app/agents/context_budget.py:630-640 | The walk returns the trimmed tree and appends one "text" entry per string it changed |
| `ContextBudget.DegradeBound` | ibkr_show_backend/app/agents/context_budget.py:643-649 | A degraded payload has at most 2099 characters: a preview of 1000 characters of JSON, each at most doubled, in a frame of 99 |
| `ContextBudget.DegradeSays` | ibkr_show_backend/app/agents/context_budget.py:643-649 | A degraded payload says so and shows the front of the text it replaces |
| `ContextBudget.DegradeLongBound` | ibkr_show_backend/app/agents/context_budget.py:643-649 | Text of more than 1000 characters, which has to be cut and ends in three dots, degrades to at most 2096 |
| `ContextBudget.DegradeBoundIsTight` | ibkr_show_backend/app/agents/context_budget.py:643-649 | A payload that prints in 1000 characters and degrades to 2099 |
| `ContextBudget.DegradeLongBoundIsTight` | ibkr_show_backend/app/agents/context_budget.py:643-649 | A payload that prints in 1002 characters and degrades to 2096 |
| `ContextBudget.FinalSizeBound` | ibkr_show_backend/app/agents/context_budget.py:187-209 | For every payload, compaction and budget the reported final size is the real one and at most max(limit, 2096), or 2099 for limits below 1000 |
| `ContextBudget.ReportExact` | ibkr_show_backend/app/agents/context_budget.py:171-209 | The report measures the payload as it was handed in; it is flagged if and only if the result is shorter, something was dropped or a field was cut; an unflagged result is no shorter than the payload |
| `ContextBudget.FirstStageThatFits` | ibkr_show_backend/app/agents/context_budget.py:187-209 | A larger budget that the payload meets passes it through; otherwise the result of the first stage within the limit is delivered, and each later stage leaves its mark among the cut fields |
| `ContextBudget.OverLimitIff` | ibkr_show_backend/app/agents/context_budget.py:187-209 | The limit is exceeded if and only if the halved and trimmed tree exceeds it and its preview, escaped again and framed by 99 characters, does too |
| `DataQuality.OverBudgetIff` | ibkr_show_backend/app/agents/context_budget.py:162-168 | The same for the `data_quality` section, by the lists of its payload; it never ends above 2096 |
| `DataQuality.CompactKeepsFronts` | ibkr_show_backend/app/agents/context_budget.py:162-168 | Each of the three lists keeps its front, item by item, short texts as they are and longer ones within 160 or 180 characters |
| `DataQuality.OverBudgetExample` | ibkr_show_backend/app/agents/context_budget.py:162-168 | A `data_quality` payload of ten items of 140 backslashes per list ends with 2072 characters, over its default budget of 2000 |
| `ContextBudget.DefaultBudgetsHold` | ibkr_show_backend/app/agents/context_budget.py:8-21 | Every section but `data_quality` (2000) ends within its own default budget |
| `ContextBudget.StagesShorter` | ibkr_show_backend/app/agents/context_budget.py:187-209 | From a limit of 2096 up, the later stages never make the compacted tree larger |
| `ContextBudget.UnflaggedUntouched` | ibkr_show_backend/app/agents/context_budget.py:171-209 | A report that is not flagged as truncated is true: the caller gets exactly the compacted payload |
| `ContextBudget.Ledger.EnforceSectionBudget` | ibkr_show_backend/app/agents/context_budget.py:187-209 | The staged method with its shared account gives the value and the report of the specification |
| `RunReplay.SanitizeIdempotent` | ibkr_show_backend/app/agents/run_replay.py:105-122 | Sanitising twice is sanitising once, on every tree |
| `RunReplay.SanitizedLeaksNothing` | ibkr_show_backend/app/agents/run_replay.py:105-122 | No secret value, no full prompt, no system message text and no over-long content is left |
| `ReplayMasking.SanitizeMasks` | ibkr_show_backend/app/agents/run_replay.py:105-122 | Value by value, with the prompt names written out: secrets and prompts replaced, system messages omitted, content cut to its front with the number of characters cut, everything else kept |
| `ReplayMasking.NoPromptLeft` | ibkr_show_backend/app/agents/run_replay.py:288-296 | At every depth of a sanitised payload a field named as a prompt, or the content of a prompt record, holds one of the two notes |
| `ReplayMasking.TruncateCuts` | ibkr_show_backend/app/agents/run_replay.py:125-132 | Strings beyond 30000 characters keep their front and get a note with the number of characters cut; everything else is kept |
| `RunReplay.Sanitize` | ibkr_show_backend/app/agents/run_replay.py:105-122 | Keys, their order and list lengths are preserved |
| `RunReplay.Truncate` | ibkr_show_backend/app/agents/run_replay.py:125-132 | Keys, their order and list lengths are preserved |
| `RunReplay.CutTextFits` | ibkr_show_backend/app/agents/run_replay.py:120-131 | A cut text, with the note of how much was cut, is short enough not to be cut again |
| `RunReplay.TruncateFits` | ibkr_show_backend/app/agents/run_replay.py:125-132 | Every string of a truncated section fits the section limit, and truncating again changes nothing |
| `RunReplay.TruncateKeepsSanitized` | ibkr_show_backend/app/agents/run_replay.py:83-89 | Cutting the long strings of a sanitised tree leaves it sanitised |
| `RunReplay.SanitizeFixedPoint` | ibkr_show_backend/app/agents/run_replay.py:105-122 | Exactly the trees that leak nothing pass unchanged |
| `RunReplay.SecondPassKeepsSection` | ibkr_show_backend/app/agents/run_replay.py:53-54 | The second pass over the whole snapshot leaves a section that was sanitised and truncated as it is, wherever it is stored |
| `ReplaySnapshot.SnapshotSurvives` | ibkr_show_backend/app/agents/run_replay.py:53-54 | The second pass keeps every field that holds sections or lists of them, and keeps the snapshot as a whole if and only if the fields stored without a first pass leak nothing |
| `ReplaySnapshot.SectionKeysOrdinary` | ibkr_show_backend/app/agents/run_replay.py:15-18 | The keys of the sections, of the model settings and of `usage` match neither the secret pattern nor the prompt names |
| `ReplaySnapshot.TokenCountsMasked` | ibkr_show_backend/app/agents/run_replay.py:207-235 | Under the source's key pattern the three token counts of every call in the snapshot are masked; the snapshot survives only if they were masks before |
| `ReplaySnapshot.SnapshotNeverSurvives` | ibkr_show_backend/app/agents/run_replay.py:168-178 | The model settings always hold `max_tokens`, which is masked even when absent; so no snapshot leaves `to_dict` as it was built |
| `FailureMining.MergeRepresents` | ibkr_show_backend/app/agents/eval_failure_mining.py:613-634 | Keys come in first-occurrence order; each survivor is the first item of the highest severity of its key's group, severities being ordered case by case; its count is the size of the group; and its duplicates name, step by step, the loser of each merge |
| `FailureMining.WorstSeverity` | ibkr_show_backend/app/agents/eval_failure_mining.py:13-13 | A survivor is critical if and only if any of its group is, else high if any is, else medium if any is |
| `FailureMining.OrderDistinct` | ibkr_show_backend/app/agents/eval_failure_mining.py:613-634 | No key is listed twice |
| `FailureMining.MergeConserves` | ibkr_show_backend/app/agents/eval_failure_mining.py:613-634 | Every input failure is named exactly once, as a survivor or as a duplicate of exactly one survivor |
| `FailureMining.Failure.constructor` | ibkr_show_backend/app/agents/eval_failure_mining.py:266-304 | A new failure counts itself once and has no duplicates |
| `FailureMining.Failure.TakeOver` | ibkr_show_backend/app/agents/eval_failure_mining.py:620-629 | A worse failure inherits count and duplicates of the one it displaces and adds that one |
| `FailureMining.Failure.NoteDuplicate` | ibkr_show_backend/app/agents/eval_failure_mining.py:630-633 | A failure that is not worse is counted and named by the one that stays |
| `FailureMining.MergeOne` | ibkr_show_backend/app/agents/eval_failure_mining.py:615-633 | One turn of the loop over mutable failures and the dict is one step of the specification |
| `FailureMining.MergeSameType` | ibkr_show_backend/app/agents/eval_failure_mining.py:613-634 | The loop returns the input objects that survive, in key order, each holding the account of the specification |
| `ScoreDetail.NormalizeScoreDetail` | ibkr_show_backend/app/agents/invariants.py:359-393 | The loop returns the checked entries and their sum, or the first error |
| `ScoreDetail.AcceptedSound` | ibkr_show_backend/app/agents/invariants.py:359-393 | An accepted detail has one entry per dimension in rubric order, within its maximum when applicable and without a score when not |
| `ScoreDetail.AcceptedIff` | ibkr_show_backend/app/agents/invariants.py:359-393 | A detail is accepted if and only if every dimension is scored inside its maximum, or missing where that is allowed; it then carries the given points and reasons |
| `ScoreDetail.TotalWithin` | ibkr_show_backend/app/agents/invariants.py:359-393 | The sum lies between 0 and the applicable maximum |
| `ScoreDetail.NormalizeAgain` | ibkr_show_backend/app/agents/invariants.py:359-393 | Checking a sound detail again gives it back |
| `DecisionOutput.AcceptedAgrees` | ibkr_show_backend/app/agents/invariants.py:224-264 | Of every accepted decision: the overall score is the rounded sum of the seven dimensions and in [0, 100]; the rating is that of the score, or capped to positive from 85 up; the target never exceeds the maximum; an add needs act-now and positive cash |
| `DecisionOutput.AcceptedIffComplete` | ibkr_show_backend/app/agents/invariants.py:224-252 | A decision is accepted if and only if its type is known and the expected one, all seven dimensions are within the rubric, action and confidence are known, and there is a summary |
| `DecisionOutput.FinalAction` | ibkr_show_backend/app/agents/invariants.py:458-466 | A request other than an add is published as it is, as is an add to act on now with positive cash; any other add becomes hold with a positive current position and watchlist without |
| `DecisionOutput.FinalFields` | ibkr_show_backend/app/agents/invariants.py:224-264 | What is taken over from the payload, when confidence drops, which rating goes with which score and when it was capped, and how target and maximum relate |
| `DecisionOutput.SecondRun` | ibkr_show_backend/app/agents/invariants.py:224-264 | Normalising a decision's own output changes nothing if and only if the cap did not fire, no ratio is left beyond 1 and no step number rounds to 0 |
| `DecisionOutput.PositionMoves` | ibkr_show_backend/app/agents/invariants.py:414-421 | An accepted decision with a current position of 15000 percent has 150 after one run and 1.5 after two |
| `DecisionOutput.StepMoves` | ibkr_show_backend/app/agents/invariants.py:434-455 | An accepted decision with a step numbered 0.3 has step 0 after one run and step 1 after two |
| `DecisionOutput.NormalizeTradeDecision` | ibkr_show_backend/app/agents/invariants.py:224-264 | The method that fills in one document field by field computes the specified decision or error |
| `DecisionOutput.SettledPercents` | ibkr_show_backend/app/agents/invariants.py:414-421 | Which raw percentages settle: those within 100.00005, the sixth digit of the ratio included |
| `DecisionOutput.RatioSettles` | ibkr_show_backend/app/agents/invariants.py:414-421 | A ratio is normalised to itself if and only if it is absent or within 1 |
| `DecisionOutput.PositionAgain` | ibkr_show_backend/app/agents/invariants.py:396-411 | Position advice is a fixed point if and only if its three ratios settle, and then without a new warning |
| `DecisionOutput.NormalizeSteps` | ibkr_show_backend/app/agents/invariants.py:434-455 | The loop numbers and cleans the steps as specified |
| `DecisionOutput.StepSays` | ibkr_show_backend/app/agents/invariants.py:434-455 | A cleaned step keeps its texts and numbers; an amount that is no number is kept in the note |
| `DecisionOutput.StepsAgain` | ibkr_show_backend/app/agents/invariants.py:434-455 | Cleaned steps are a fixed point if and only if no step number is 0 |
| `ReviewOutput.AcceptedConsistent` | ibkr_show_backend/app/agents/invariants.py:267-323 | Of every accepted review: applicable and excluded maxima add up to 100; 0 <= raw score <= applicable maximum after all repairs; the overall score is in [0, 100]; the rating is that of the published score |
| `ReviewOutput.AcceptedIffComplete` | ibkr_show_backend/app/agents/invariants.py:267-323 | A review is accepted if and only if its scores fit the rubric, there is a summary, and the limitations can take the note of the floors when these fire |
| `ReviewOutput.RatingRanges` | ibkr_show_backend/app/agents/invariants.py:191-198 | The four ratings by the published score: from 85, 70 and 50 up, and below |
| `ReviewOutput.LimitationsSay` | ibkr_show_backend/app/agents/invariants.py:541-563 | The limitations are the given ones and then one note per repair that fired, in order |
| `ReviewOutput.SecondRun` | ibkr_show_backend/app/agents/invariants.py:267-323 | Normalising a review's own output for the same facts changes nothing, without exception |
| `ReviewOutput.OpenBuyZero` | ibkr_show_backend/app/agents/invariants.py:278-297 | An open single BUY is published with 0 if and only if its exact total is positive and at most 0.00005 of the applicable maximum: the floors look at the exact total |
| `ReviewOutput.OpenBuyZeroExample` | ibkr_show_backend/app/agents/invariants.py:278-297 | A concrete open BUY review that is published with 0 |
| `ReviewOutput.FloorsMakeTen` | ibkr_show_backend/app/agents/invariants.py:278-290 | The floors fire only on a review with nothing scored and always make the exact total 10, and never together with the exit repair |
| `ReviewOutput.FloorsByName` | ibkr_show_backend/app/agents/invariants.py:278-286 | A floored review has 5 points for entry, 3 for sizing, 1 for holding and 1 for risk, and none elsewhere |
| `ReviewOutput.FlooredIsPoor` | ibkr_show_backend/app/agents/invariants.py:278-297 | A floored review is published as 11.76 without sells and as 10.00 with them, rated poor |
| `ReviewOutput.ExitLift` | ibkr_show_backend/app/agents/invariants.py:541-563 | The exit repair adds exactly 7.5 to the total when it fires and nothing otherwise |
| `ReviewOutput.ExitEntry` | ibkr_show_backend/app/agents/invariants.py:541-563 | What becomes of the exit entry: score and reason, replaced, kept, or marked as reopened |
| `ReviewOutput.DeniesIff` | ibkr_show_backend/app/agents/invariants.py:566-567 | A reason denies the sells if and only if one of the eight phrases stands somewhere in it |
| `ReviewOutput.RepairsSound` | ibkr_show_backend/app/agents/invariants.py:267-323 | Exit repair and floors keep every score inside its dimension and every exclusion as it was |
| `ReviewOutput.MaxSplits` | ibkr_show_backend/app/agents/invariants.py:290-304 | Applicable and excluded points add up to the rubric |
| `ReviewOutput.ReplacementAccepts` | ibkr_show_backend/app/agents/invariants.py:550-561 | The replacement reason does not match the denial pattern |
| `ReviewOutput.SuffixKeepsAcceptance` | ibkr_show_backend/app/agents/invariants.py:560-567 | Appending the suffix on a reopened position never turns an accepted reason into a denial |
| `ReviewOutput.ExitSettled` | ibkr_show_backend/app/agents/invariants.py:541-567 | A repaired exit entry is not repaired, and not marked, again |
| `ReviewOutput.NormalizeExitQuality` | ibkr_show_backend/app/agents/invariants.py:541-563 | The step-by-step repair gives the repaired detail, the extended limitations and the new total |
| `ReviewOutput.CollectExcluded` | ibkr_show_backend/app/agents/invariants.py:299-304 | The loop collects exactly the dimensions left out, in rubric order |
| `ReviewOutput.FilterTags` | ibkr_show_backend/app/agents/invariants.py:306-314 | The loop splits the tags into known and unknown ones, keeping their order |
| `ReviewOutput.NormalizeTradeReview` | ibkr_show_backend/app/agents/invariants.py:267-323 | The method that repairs one document field by field computes the specified review or error |
| `Rounding.Round2Zero` | ibkr_show_backend/app/agents/invariants.py:291-294 | A number rounds to 0 at two digits if and only if it lies within 0.005 of 0 |
| `JudgeResult.Coerce` | ibkr_show_backend/app/agents/eval_judge.py:294-301 | The result lies in [0, 1]; a score in that range is kept and one up to 100 is read as a percentage |
| `JudgeResult.ResultConsistent` | ibkr_show_backend/app/agents/eval_judge.py:303-374 | Every score lies in [0, 1], every expected dimension has one, keys are distinct, and the failed dimensions are exactly those listed and those scored below 0.6; without a verdict of its own a result passes if and only if its score is 0.6 or more |
| `JudgeResult.CollectsAll` | ibkr_show_backend/app/agents/eval_judge.py:325-337 | A dimension has a score if and only if an entry of the judge stands for one, plain or under `score` |
| `JudgeResult.FillSays` | ibkr_show_backend/app/agents/eval_judge.py:339-342 | An expected dimension that was left out is scored zero; every other score stays |
| `JudgeResult.SecondRun` | ibkr_show_backend/app/agents/eval_judge.py:303-374 | Normalising a result again changes nothing if and only if a low dimension with an empty name is followed by no low dimension that was not listed |
| `JudgeResult.UnnamedMoves` | ibkr_show_backend/app/agents/eval_judge.py:303-374 | Two dimensions scored 0, the first without a name: a second run reverses them among the failed ones |
| `JudgeResult.NormalizeJudgeResult` | ibkr_show_backend/app/agents/eval_judge.py:303-374 | The loops that fill the dict and the list compute the specified result |
| `TradeSelection.SelectionFromInput` | ibkr_show_backend/app/agents/context_budget.py:398-424 | The selection is free of duplicates, contains only input trades, and has at most `limit` of them |
| `TradeSelection.StartsWithOpening` | ibkr_show_backend/app/agents/context_budget.py:398-424 | It begins with the first BUY and then the distinct SELLs in order of first occurrence, cut only by the limit |
| `TradeSelection.EarliestBuyLeads` | ibkr_show_backend/app/agents/context_budget.py:407-412 | The trade in front is the earliest one whose side is BUY |
| `TradeSelection.OpeningSays` | ibkr_show_backend/app/agents/context_budget.py:407-412 | Behind it stands every SELL, and nothing else |
| `TradeSelection.LargestSelected` | ibkr_show_backend/app/agents/context_budget.py:413-414 | The largest trade by absolute amount, the earliest of several, is selected unless the first BUY and the SELLs already fill the limit; when it is none of them it stands directly behind them |
| `TradeSelection.LargestDominate` | ibkr_show_backend/app/agents/context_budget.py:413-421 | By absolute amount and by absolute realised profit three trades (five in the evidence pack) or all there are, and none left out is larger than one taken |
| `TradeSelection.NewestAreLast` | ibkr_show_backend/app/agents/context_budget.py:422-423 | The newest trades are the last four of the dicts, or the dicts among the last eight elements |
| `TradeSelection.RoomForAll` | ibkr_show_backend/app/agents/evidence_schema.py:321-350 | With room for every candidate exactly the candidates are selected: first BUY, all SELLs, largest, most realised and newest trades |
| `TradeSelection.Select` | ibkr_show_backend/app/agents/evidence_schema.py:321-350 | The growing list with its nested `add` gives the specified selection, in the variant of either file |
| `SessionToken.RoundTrip` | ibkr_show_backend/app/core/auth.py:17-23 | Decoding gives back every byte string that was encoded, padding stripped and restored |
| `SessionToken.SymbolInTable` | ibkr_show_backend/app/core/auth.py:17-18 | The printed alphabet is the table of section 5 of RFC 4648 |
| `SessionToken.TestVectors` | ibkr_show_backend/app/core/auth.py:17-18 | The test vectors of section 10 of RFC 4648 for one, two and three bytes |
| `SessionToken.DecodeEncode` | ibkr_show_backend/app/core/auth.py:17-23 | A text of the base64url alphabet decodes if and only if its length is not one more than a multiple of four, and is what the encoder prints for the bytes if and only if its unused bits are zero |
| `SessionToken.EncodeIsUnpadded` | ibkr_show_backend/app/core/auth.py:17-18 | Stripping removes exactly the padding and leaves only characters of the alphabet |
| `SessionToken.TokenRoundTrip` | ibkr_show_backend/app/core/auth.py:26-60 | A token verifies under its own secret, to the username and expiry it was made for, exactly at times before that expiry |
| `SessionToken.AcceptedIff` | ibkr_show_backend/app/core/auth.py:35-60 | A token is accepted if and only if it is a payload with its own signature behind the last dot that reads as an unexpired session |
| `SessionToken.RaisesIff` | ibkr_show_backend/app/core/auth.py:35-60 | Verification raises instead of answering exactly on a signature outside ASCII and on a signed payload that is no JSON object |

## Left out

Each weaker than the source in one respect:

- RunTheorems.RunStopsWell: a run that raises keeps no trace in the model, although the source has filled one in by then.
- RunStory.RunFollowsModel: what the model is shown at each attempt is the conversation so far, but the environment answers by the number of the attempt, so the messages handed over are not an argument of it.
- RunReplay.SanitizeIdempotent: strings are at most 2^63 - 1 characters long, as in CPython; the note of what was cut would otherwise have no bound.
- ContextBudget.FinalSizeBound: bounds the reported size, measured before `_attach_limitations` adds its text to the payload; the structural compaction per section is an arbitrary function.
- ReplaySnapshot.TokenCountsMasked: the key pattern is spelled out for lower-case keys, which are all a snapshot is built with; upper-case variants stay with the arbitrary predicate.
- DataQuality.OverBudgetIff: how Python prints list items that are not text is an arbitrary function.
- ContextBudget.TrimFixedPoint: for limits of 3 and more; below that the source returns three dots for longer text. The same holds for `TrimShorter`, `PublicItem.CompactSmall` and `PublicItem.CompactShorter`, and the source only passes larger limits.
- TradeSelection.LargestSelected: amounts and profits are integers, since only their order matters; the limit is not negative.
- ReviewOutput.NormalizeTradeReview: the trade facts are three given booleans, tags are text, and the limitations list is a value, so writing into the caller's own list is not captured.
- DecisionOutput.NormalizeTradeDecision: action and confidence arrive already looked up in their alias tables, and the test for missing market data is an arbitrary predicate on the warnings.
- FailureMining.MergeSameType: the failures are distinct new objects, as `classify_failure` makes them.
- SessionToken.TokenRoundTrip: HMAC-SHA256 is any keyed function with hexadecimal output and JSON any codec that reads back what it wrote; text with lone surrogates is not representable.

Not modelled:

- Malformed tool arguments are one outcome of a call; the JSON parser that finds them is not modelled.
- Thread timing, latencies, clock values, monitoring callbacks, provider metadata, output summaries and the wording of prompts.
- `extract_llm_calls_from_trace`, the node-trace half of `build_run_trace_summary`, context manifests and prompt metadata.
- Key patterns of the sanitisers are arbitrary predicates on keys, but for `ReplaySnapshot`; lower-casing is an arbitrary function.
- JSON trees hold no tuples, non-string keys or NaN; numbers enter only through their printed text.
- Floating-point error: sums and quotients are exact and only `round` rounds. Numbers that are not finite are already read as missing.
- The list fields of decisions and reviews that are only converted to text, `normalize_daily_position_review_output`, and the extraction of trade facts from nested contexts.
- `classify_failure`, duplicate keys and severities from checks: substring tests over fixed tables.
- The other per-section compactors of `context_budget.py`, the evidence pack builders and `_apply_section_budgets`.
- Parsing the judge's text into JSON, and the judge's prompts.
- Elasticsearch, Redis, HTTP, streaming, mail, routing and settings: plumbing without an invariant of its own.
- The approval and run services, the risk gate, the graph nodes and the statement parsers.
