# AdaptiveAlpha core, modelled in Dafny

AdaptiveAlpha is a toolkit for researching Freqtrade trading strategies with help from a
chat model. Its agents ask the model for parameter tweaks and rewrite a strategy's
`minimal_roi` and `stoploss` assignments. They run backtests, keep short- and long-term
memories of what happened and log each loop. Around the agents sit these helpers:

- a one-shot tuner;
- a file-backed key-value memory and a minimal memory server;
- a walk-forward period generator;
- patch clean-up, application and verification;
- a strategy generator, a packager for code review, report parsers and a run reporter;
- an LLM request logger and a shared chat client;
- a file watchdog;
- a self-healing verifier and an auto-patching loop;
- small log exporters and summaries.

This project models that logic, one Dafny module per source file:

| module | source |
|---|---|
| `SelfLoopCommon`, `SelfLoop` | `src/agents/trading/self_loop_agent.py` and its identical copy under `src/agents/utils/` |
| `SelfLoopFixed` | `src/agents/trading/self_loop_agent_fixed.py` |
| `AgentsLoop` | `src/agents/utils/agents_self_loop_agent.py` |
| `TuneScan`, `TuneOnce` | `scripts/utils/tune_once.py` |
| `MemoryStore` | `src/agents/utils/mcp_memory_client.py` |
| `MemoryServer` | `scripts/utils/minimal_mcp_server.py` |
| `WalkForward` | `scripts/utils/walk_forward_validation.py` |
| `PatchUtils` | `src/agents/utils/patch_utils.py` |
| `StrategyLab` | `src/agents/trading/strategy_lab.py` and its identical copy under `src/agents/utils/` |
| `PackageReview` | `scripts/utils/package_for_ai_review.py` |
| `ParseReport` | `scripts/utils/parse_report.py` |
| `Reporting` | `src/agents/utils/reporting.py` |
| `LlmLogger` | `scripts/utils/llm_logger.py` |
| `LlmClient` | `src/services/llm_client.py` |
| `Watchdog` | `src/agents/system/watchdog_agent.py` and its identical copy under `src/agents/utils/` |
| `AutoPatchLoop` | `scripts/utils/auto_patch_loop.py` |
| `PatchVerifier` | `scripts/utils/patch_verifier.py` |
| `AutoVerify` | `scripts/utils/auto_verify.py` |
| `LearningLogSummary` | `scripts/utils/print_learning_log_summary.py` |
| `ExportMlLogs` | `scripts/utils/export_ml_logs_to_jsonl.py` |
| `HardwareConfig` | `scripts/utils/test_hardware_config.py` |

`Wrappers`, `Text`, `Numeric` and `Json` give the Python built-ins the sources rely on:
- `Text`: `str.strip`, `find`, `replace`, `lower`, slicing and string order;
- `Numeric`: `float()` of ASCII decimal text, `f"{x:.kf}"`, `round`, `int`;
- `Json`: decoded JSON values, truthiness, `dict.get`, `in` and `or`.

Everything outside the process is an input to the operation that needs it: HTTP replies,
subprocess exit codes and output, file contents and listings, modification times,
environment variables, the clock, and the JSON, YAML and CSV parsers. A Python exception
is a `None`, a failure flag or an error variant of the result. Objects whose methods
update their fields are Dafny classes: the memory server, the LLM logger, the watchdog,
the patch loop, the patch verifier, the verifier, the tuner and the patch workspace. The
loops of the sources are `while` loops with invariants, proved against the functions
that specify them.

## Model

| member | source | states |
|---|---|---|
| SelfLoopCommon.Clamp | src/agents/trading/self_loop_agent.py:111-112 | `max(lo, min(x, hi))` lies in `[lo, hi]`, is `x` itself inside the range and the nearer bound outside it |
| SelfLoopCommon.ClampMonotone | src/agents/trading/self_loop_agent.py:111-112 | a larger proposal never clamps to a smaller value |
| SelfLoopCommon.FirstBraceSpan | src/agents/trading/self_loop_agent.py:98 | the lazy DOTALL match of `\{.*?\}` starts with `{`, ends with `}` and holds no `}` before its end |
| SelfLoopCommon.FirstBraceSpanExists | src/agents/trading/self_loop_agent.py:98-102 | the pattern matches exactly when some `{` is followed later by a `}` (across newlines) |
| SelfLoopCommon.BraceSpanFound | src/agents/trading/self_loop_agent.py:98 | any `{` before a `}` is enough for a match |
| SelfLoopCommon.Suggest | src/agents/trading/self_loop_agent.py:85-113 | a suggestion is an exception exactly for content that is not a string (the regular expression search sits outside the `try` in every variant) and, in the variants that do not catch it, for a reply without message content; every returned pair lies inside the variant's clamp ranges (the fixed variant uses the same steps with its own bounds and fallback) |
| SelfLoopCommon.BoundsWellFormed | src/agents/trading/self_loop_agent.py:94-113 | the fallback pairs (0.012, -0.11) and (0.015, -0.08) lie inside their own clamp ranges |
| SelfLoopCommon.SuggestFailures | src/agents/trading/self_loop_agent.py:94-110 | a request error, no brace span, an undecodable span or a non-numeric field gives exactly the fallback pair (the utils copy is identical) |
| SelfLoopCommon.SuggestMissingStoploss | src/agents/trading/self_loop_agent.py:104-106 | a decoded object without `stoploss` keeps the default stop-loss and clamps the given ROI |
| SelfLoopCommon.SuggestMissingRoi | src/agents/trading/self_loop_agent.py:104-106 | a decoded object without `minimal_roi_0` keeps the default ROI and clamps the given stop-loss |
| SelfLoopCommon.MatchAt | src/agents/trading/self_loop_agent.py:127-133 | a match of either assignment pattern starting at `i` is non-empty and ends inside the text |
| SelfLoopCommon.SubNoMatch | src/agents/trading/self_loop_agent.py:127-133 | `re.sub` with a pattern that never matches leaves the text unchanged |
| SelfLoopCommon.SubFirstMatch | src/agents/trading/self_loop_agent.py:127-133 | `re.sub` keeps the text before the first match, puts the replacement in its place and goes on after it |
| SelfLoopCommon.SubCopies | src/agents/trading/self_loop_agent.py:127-133 | where nothing matches, `re.sub` copies the character |
| SelfLoopCommon.MutateNoMatch | src/agents/trading/self_loop_agent.py:125-134 | a source with neither assignment is written back unchanged, and nothing fails (the utils copy is identical) |
| SelfLoopCommon.FormattedParts | src/agents/trading/self_loop_agent.py:129 | a `:.kf` rendering is an optional minus, digits, a point and exactly `k` digits |
| SelfLoopCommon.FormattedChars | src/agents/trading/self_loop_agent.py:129 | a rendering holds only digits, a point and perhaps a minus sign |
| SelfLoopCommon.RoiMatchShape | src/agents/trading/self_loop_agent.py:127-131 | any `minimal_roi = {...}` with no inner `}` is one whole match of the ROI pattern |
| SelfLoopCommon.RoiTextMatches | src/agents/trading/self_loop_agent.py:127-131 | the inserted `minimal_roi = {"0": x}` is itself one whole match, so a second rewrite finds it again |
| SelfLoopCommon.StopMatchShape | src/agents/trading/self_loop_agent.py:133 | `stoploss = `, an optional `-`, digits, a point and digits form one whole match of the stop-loss pattern |
| SelfLoopCommon.StopTextMatches | src/agents/trading/self_loop_agent.py:133 | the inserted `stoploss = x` (two decimals) is itself one whole match |
| SelfLoopCommon.VFlags | src/agents/trading/self_loop_agent.py:178-183 | `n` flags, each `-v` |
| SelfLoopCommon.FirstFrom | src/agents/trading/self_loop_agent.py:198-204 | the index of the first line at or after `i` that satisfies the test, with none before it |
| SelfLoopCommon.FirstAt | src/agents/trading/self_loop_agent.py:198-204 | a satisfying line with none before it is the one found |
| SelfLoopCommon.CollectSummary | src/agents/trading/self_loop_agent.py:196-207 | the `in_summary` loop and its 20-line fallback compute the marker-to-closing block |
| SelfLoopCommon.CollectLine | src/agents/trading/self_loop_agent.py:199-204 | one pass of the loop body either closes the block or keeps the loop invariant |
| SelfLoopCommon.CollectedAll | src/agents/trading/self_loop_agent.py:205-207 | at the end of the lines, an open block runs to the end; no marker means the last 20 lines |
| SelfLoopCommon.ExtractSummary | src/agents/trading/self_loop_agent.py:196-207 | the extraction yields the block from the first "STRATEGY SUMMARY" line through the first stripped line starting with `└`, else the last 20 lines (the utils copy and the fixed variant extract it the same way) |
| SelfLoopCommon.SummaryIsSlice | src/agents/trading/self_loop_agent.py:196-207 | the summary is a contiguous slice of the output lines and is empty only for empty output |
| SelfLoop.DownloadCommand | src/agents/trading/self_loop_agent.py:137-146 | the download arguments are the fixed six followed by `min(verbosity, 3)` `-v` flags |
| SelfLoop.BacktestCommand | src/agents/trading/self_loop_agent.py:160-187 | the backtest arguments are the fixed prefix, the capped `-v` flags and `--export trades` exactly when asked |
| SelfLoop.BacktestCommandShape | src/agents/trading/self_loop_agent.py:178-187 | the flag count is the verbosity capped at three; the 14-argument prefix is unchanged; the length grows by 2 exactly with export (the utils copy is identical) |
| SelfLoop.ExportFlagIff | src/agents/trading/self_loop_agent.py:186-187 | `--export` occurs on the command line if and only if trade export was requested |
| SelfLoop.LoadList | src/agents/utils/self_loop_agent.py:256-259 | a stored list becomes its elements through `str`, in order; anything else becomes `[]` |
| SelfLoop.StrList | src/agents/trading/self_loop_agent.py:281-282 | the stored form of a memory list is a JSON array of its strings |
| SelfLoop.StoredListRoundTrip | src/agents/trading/self_loop_agent.py:256-282 | a memory list the loop stored loads back unchanged |
| SelfLoop.WindowBounded | src/agents/trading/self_loop_agent.py:274-278 | append then a single `pop(0)` keeps a window of at most five, ending with the new summary and keeping the latest entries in order (the utils copy is identical) |
| SelfLoop.Unavailable | src/agents/trading/self_loop_agent.py:270-271 | the stand-in message for an unreadable log is longer than the error text, hence never empty |
| SelfLoop.ReadSummaryEmpty | src/agents/trading/self_loop_agent.py:264-273 | the summary leaves memory alone exactly when the log exists and is all whitespace |
| SelfLoop.PromptCarriesMemory | src/agents/trading/self_loop_agent.py:283-299 | with short-term memory every short- and long-term entry is quoted in the prompt; without it the prompt is the spec |
| SelfLoop.RetryOutcome | src/agents/trading/self_loop_agent.py:307-323 | the retry loop stops at the first accepted attempt and never makes more than three calls |
| SelfLoop.RetryLoop | src/agents/trading/self_loop_agent.py:307-323 | the `for attempt` loop with `break` computes the retry outcome |
| SelfLoop.RetryOnce | src/agents/trading/self_loop_agent.py:309-315 | since the suggester returns floats, the conversion never fails and the loop makes exactly one call |
| SelfLoop.RetrySuggest | src/agents/trading/self_loop_agent.py:307-326 | one call, whose pair is the suggestion and lies inside the original ranges |
| SelfLoop.Agent.constructor | src/agents/trading/self_loop_agent.py:116-122 | the strategy file gets the baseline only when missing; memories load from the store when enabled, else start empty |
| SelfLoop.WindowedIsLast | src/agents/trading/self_loop_agent.py:274-278 | from a loaded window of at most five, appending and popping once per summary keeps exactly the last five |
| SelfLoop.MemoriesAfter | src/agents/trading/self_loop_agent.py:260-282 | long-term memory keeps the loaded entries and gains at most one per iteration; from a window of at most five, the window is the last five of the loaded window followed by what long-term memory gained |
| SelfLoop.AfterObserve | src/agents/trading/self_loop_agent.py:262-282 | reading the log at the start of an iteration remembers its summary on top of the earlier iterations and moves nothing else |
| SelfLoop.ObservedAfter | src/agents/trading/self_loop_agent.py:262-282 | observing once more after some summaries were read is reading one more summary, or none when it is empty |
| SelfLoop.AfterRewrite | src/agents/trading/self_loop_agent.py:307-346 | rewriting and backtesting in an iteration moves only the strategy and the log |
| SelfLoop.SavedTwice | src/agents/trading/self_loop_agent.py:281-282 | saving the memories again overwrites both keys of the earlier save |
| SelfLoop.Agent.Remember | src/agents/trading/self_loop_agent.py:274-282 | a non-empty summary joins the window and the long-term list (and the store when enabled); an empty one changes nothing |
| SelfLoop.Agent.Observe | src/agents/trading/self_loop_agent.py:262-299 | the last summary (or the read error) is remembered, then the prompt is built from the new memories |
| SelfLoop.Agent.Propose | src/agents/trading/self_loop_agent.py:307-346 | the suggestion rewrites the strategy; a completed run writes its summary log, a failed one leaves it; an escaped exception leaves everything |
| SelfLoop.Agent.Backtest | src/agents/trading/self_loop_agent.py:151-222 | success is exactly a completed run; a completed run's summary replaces the log and a failed one leaves it; the strategy, both memories and the store are untouched |
| SelfLoop.Agent.Iterate | src/agents/trading/self_loop_agent.py:260-346 | one loop, stated on the whole state: a non-empty summary of the current log joins both memories and, with memory on, the store, even when the suggester then raises; without a raise the pair rewrites the strategy and a completed backtest replaces the log; the prompt is built from the updated memories |
| SelfLoop.Agent.RunLoops | src/agents/trading/self_loop_agent.py:260-347 | the new state is `After`: every non-empty summary read by the iterations that ran (the one an exception ended included) joined both memories and the store, each completed iteration's pair rewrote the strategy and the last completed backtest wrote the log; the loop stops before its limit only on a reply without message content or with content that is not a string, the suggester's exception; a window of at most five stays so and long-term memory only grows |
| SelfLoopFixed.DownloadCommand | src/agents/trading/self_loop_agent_fixed.py:242-246 | the download arguments end with one `-v` exactly when verbosity is at least 1 |
| SelfLoopFixed.BacktestCommand | src/agents/trading/self_loop_agent_fixed.py:248-258 | at most one `-v` (iff verbosity >= 1), `--export trades` iff requested, the 14-argument prefix unchanged |
| SelfLoopFixed.WindowBounded | src/agents/trading/self_loop_agent_fixed.py:358-362 | the ten-entry window keeps at most ten, ends with the new note and keeps the latest entries in order |
| SelfLoopFixed.Shown | src/agents/trading/self_loop_agent_fixed.py:335 | `str` is applied to each quoted entry |
| SelfLoopFixed.PromptQuotesRecent | src/agents/trading/self_loop_agent_fixed.py:328-338 | each of the last three short-term entries is quoted in the prompt; with no entries the prompt is the spec |
| SelfLoopFixed.Agent.constructor | src/agents/trading/self_loop_agent_fixed.py:222-323 | the strategy file is overwritten with the baseline whether or not it exists; when memory is enabled, stored memories that are not lists load as `[]` and a missing history loads as `[]` |
| SelfLoopFixed.WindowedIsLast | src/agents/trading/self_loop_agent_fixed.py:358-362 | once a note has joined, the window is the last ten of the loaded entries and every note, whatever was loaded |
| SelfLoopFixed.AfterStep | src/agents/trading/self_loop_agent_fixed.py:326-375 | one more recorded loop moves each part of the state as one iteration does: strategy, log, window, one history record, a long-term note on success and the store |
| SelfLoopFixed.StoredStep | src/agents/trading/self_loop_agent_fixed.py:368-375 | storing again over a stored state leaves the keys of storing once, the long-term list stored once any loop succeeded |
| SelfLoopFixed.AfterMovedFirst | src/agents/trading/self_loop_agent_fixed.py:340-362 | the first loop over a history that is not a list rewrites the strategy, writes the log and joins the window, and records nothing |
| SelfLoopFixed.AfterRecorded | src/agents/trading/self_loop_agent_fixed.py:326-375 | over a list history, loop `k` is the previous state moved by the loop's pair and run and then recorded, with its record, long-term note and store update |
| SelfLoopFixed.LoopStep | src/agents/trading/self_loop_agent_fixed.py:326-380 | one more suggested loop extends the run of suggestions; the history stays a list exactly when it started as one; the first loop over a non-list history only moves the state, and any loop over a list history moves and records it |
| SelfLoopFixed.Agent.Record | src/agents/trading/self_loop_agent_fixed.py:349-375 | the note joins the ten-entry window, the history grows by one record (raising when the stored history is not a list), long-term memory grows only when enabled and successful |
| SelfLoopFixed.Agent.Propose | src/agents/trading/self_loop_agent_fixed.py:340-347 | the pair is the fixed variant's suggestion; it rewrites the strategy and the run's outcome is the backtest result |
| SelfLoopFixed.Agent.Backtest | src/agents/trading/self_loop_agent_fixed.py:248-287 | a completed run's summary replaces the log; a failed one leaves it; success is reported as the run's completion |
| SelfLoopFixed.Agent.Iterate | src/agents/trading/self_loop_agent_fixed.py:326-380 | one loop, stated on the whole state: the pair rewrites the strategy and a completed backtest replaces the log; the note joins the window; a list history gains the loop's record, long-term memory gains a note only on success with memory on, and the store takes the window, the history and (on success) long-term memory; a history that is not a list raises after the window update; the suggester raises exactly on a reply without message content or with content that is not a string, and then nothing changes |
| SelfLoopFixed.Agent.RunLoops | src/agents/trading/self_loop_agent_fixed.py:326-380 | the new state is `After`: the strategy rewritten with every pair, the log of the last completed backtest, the window over every loop note, one history record per recorded loop, a long-term note per success with memory on, and the store holding that state; the loop stops early only on a reply without message content or with content that is not a string (nothing recorded for that loop) or on a history that is not a list (that loop moved but not recorded) |
| SelfLoopFixed.ListAt | src/agents/trading/self_loop_agent_fixed.py:313-314 | a stored list is taken as it is; an absent or non-list value gives `[]` |
| SelfLoopFixed.FixedSuggestions | src/agents/trading/self_loop_agent_fixed.py:201-220 | every pair lies in [0.005, 0.050] x [-0.20, -0.03]; a request error gives exactly (0.015, -0.08) |
| AgentsLoop.NumericEntries | src/agents/utils/agents_self_loop_agent.py:115-124 | exactly the entries whose values convert to float are kept, converted |
| AgentsLoop.LoadMemory | src/agents/utils/agents_self_loop_agent.py:106-128 | loading gives the numeric entries of a decoded object; a missing or undecodable file gives `{}`; a decoded document that is not an object raises |
| AgentsLoop.Saved | src/agents/utils/agents_self_loop_agent.py:131-134 | the saved file is a JSON object with exactly the memory's keys |
| AgentsLoop.LoadSaved | src/agents/utils/agents_self_loop_agent.py:106-134 | saving then loading gives the memory back |
| AgentsLoop.PromptWithMemoryShape | src/agents/utils/agents_self_loop_agent.py:137-148 | the prompt is BASE_PROMPT exactly when memory is empty; it always starts with BASE_PROMPT and quotes the best profit when recorded |
| AgentsLoop.LlmTweak | src/agents/utils/agents_self_loop_agent.py:151-202 | raises exactly when the content is not a string (`re.search` is outside the `try`); otherwise the tweak lies in [0.001, 0.10] x [-0.30, -0.01] |
| AgentsLoop.LlmTweakFailures | src/agents/utils/agents_self_loop_agent.py:182-197 | a request error, a malformed reply shape, no brace span or a decode failure gives exactly (0.012, -0.11) |
| AgentsLoop.ExportPathInjective | src/agents/utils/agents_self_loop_agent.py:259 | distinct loop ids get distinct `trades_loop_<id>.csv` paths |
| AgentsLoop.BacktestCommand | src/agents/utils/agents_self_loop_agent.py:259-279 | 18 arguments with `--export trades --export-filename <results>/trades_loop_<id>.csv` |
| AgentsLoop.Wins | src/agents/utils/agents_self_loop_agent.py:318-328 | the number of wins never exceeds the number of rows |
| AgentsLoop.SummarizeTrades | src/agents/utils/agents_self_loop_agent.py:298-336 | the aggregating loop computes the specified summary |
| AgentsLoop.SummaryBounds | src/agents/utils/agents_self_loop_agent.py:303-336 | trades is the row count, the win rate lies in [0, 100] and is 0 without rows; a missing file gives all zeros |
| AgentsLoop.RateBounds | src/agents/utils/agents_self_loop_agent.py:330 | `100 * wins / total` lies in [0, 100] |
| AgentsLoop.UnparsedRow | src/agents/utils/agents_self_loop_agent.py:320-325 | a row whose profit fields do not parse adds nothing to either sum and is not a win |
| AgentsLoop.WinsCount | src/agents/utils/agents_self_loop_agent.py:327-328 | wins is the number of rows whose profit ratio is positive |
| AgentsLoop.LogEntry | src/agents/utils/agents_self_loop_agent.py:367-377 | one log row carries the loop id and the timestamp given |
| AgentsLoop.AppendedWellFormed | src/agents/utils/agents_self_loop_agent.py:339-378 | the header is written only when the log did not exist, then exactly one row; a well-formed log stays well-formed |
| AgentsLoop.Improved | src/agents/utils/agents_self_loop_agent.py:391-398 | the update records the new best profit and keeps every existing key |
| AgentsLoop.BestNeverDecreases | src/agents/utils/agents_self_loop_agent.py:381-399 | the memory file changes exactly when the new profit strictly exceeds the stored best (default minus infinity) |
| AgentsLoop.FirstResultIsBest | src/agents/utils/agents_self_loop_agent.py:388-399 | with no readable memory, any result becomes the recorded best |
| AgentsLoop.MemAfterIsMax | src/agents/utils/agents_self_loop_agent.py:381-448 | after k loops the stored best profit is the maximum of the loaded best and every loop's profit; the file is unchanged when no loop beat the loaded best, and otherwise holds the tweak of the loop that first reached the maximum |
| AgentsLoop.MaxStep | src/agents/utils/agents_self_loop_agent.py:381-399 | one `maybe_update_memory` call is one step of the best-so-far fold: the file keeps the maximum profit and the pair of the loop that first reached it |
| AgentsLoop.ImprovedKeepsPair | src/agents/utils/agents_self_loop_agent.py:391-398 | the improved memory saves and loads back unchanged and records the loop's pair |
| AgentsLoop.LogAfterCount | src/agents/utils/agents_self_loop_agent.py:339-448 | after k loops a well-formed log stays well-formed and has exactly k more rows |
| AgentsLoop.AfterTweak | src/agents/utils/agents_self_loop_agent.py:420-446 | one more loop whose reply content is a string moves the log by one row and the strategy by one rewrite, both with that reply's tweak |
| AgentsLoop.MemAfterNotWorse | src/agents/utils/agents_self_loop_agent.py:381-448 | after k loops the memory still loads and its best profit is at least the loaded best |
| Numeric.MaxFromIsMax | src/agents/utils/agents_self_loop_agent.py:388-399 | the running maximum of strictly-greater updates beats neither the start nor any element; it is the start when nothing beat it, and otherwise the first element that beat the start and everything before it |
| Numeric.MaxFromSnoc | src/agents/utils/agents_self_loop_agent.py:388-399 | one more element becomes the maximum, with its index, exactly when it is strictly greater |
| AgentsLoop.Agent.constructor | src/agents/utils/agents_self_loop_agent.py:205-216 | the strategy file gets the baseline only when missing |
| AgentsLoop.Agent.AppendLog | src/agents/utils/agents_self_loop_agent.py:339-378 | the log becomes the old log with one row appended (after the header when new) |
| AgentsLoop.Agent.MaybeUpdateMemory | src/agents/utils/agents_self_loop_agent.py:381-399 | the memory file becomes the updated memory; a memory document that is not an object raises and changes nothing |
| AgentsLoop.Agent.Iterate | src/agents/utils/agents_self_loop_agent.py:420-446 | raises, changing nothing, exactly when the memory document is not an object or the reply content is not a string; otherwise one loop rewrites the strategy with the tweak, appends the log row and updates the best memory |
| AgentsLoop.Agent.Advance | src/agents/utils/agents_self_loop_agent.py:420-446 | from the state the first k loops left, loop k + 1 either raises, changing nothing, because the memory is not an object or the reply content is not a string, or leaves the state of k + 1 completed loops |
| AgentsLoop.Agent.Loop | src/agents/utils/agents_self_loop_agent.py:420-448 | the loop runs at most `max_loops` iterations and stops early only when the memory is not an object or a reply's content is not a string; the memory file, log and strategy are the folds over the completed loops |
| AgentsLoop.Agent.RunLoops | src/agents/utils/agents_self_loop_agent.py:420-448 | at most `max_loops` iterations: none when the memory document is not an object, and otherwise the loop ends early only at a reply whose content is not a string (the uncaught exception); the memory file becomes `MemAfter`, whose best profit is the maximum of the stored best and every completed loop's profit; the log gains one row per completed loop; the strategy carries each completed loop's tweak in turn |
| TuneScan.CloseFenceEnd | scripts/utils/tune_once.py:63 | a closing fence (blank space then three backticks) found from `j` ends inside the text, three past its start at least |
| TuneScan.LazyClose | scripts/utils/tune_once.py:63 | the lazy `\{.*?\}` group inside a fence ends at a `}` inside the text |
| TuneScan.FenceAt | scripts/utils/tune_once.py:63 | a fenced match at `p` has a group that starts with `{` and ends with `}` and lies inside the match |
| TuneScan.FenceGroups | scripts/utils/tune_once.py:63 | every group `re.finditer` yields is a braced chunk of the text |
| TuneScan.SliceBraced | scripts/utils/tune_once.py:63 | a slice from a `{` to a `}` is a braced chunk |
| TuneScan.FirstDecoded | scripts/utils/tune_once.py:63-67 | the result is the decoding of some fenced group, and `None` only when no group decodes |
| TuneScan.ScanJsonObjects | scripts/utils/tune_once.py:56-87 | the scanner returns the first fenced object that parses, else the brace scan's result |
| TuneScan.FirstFenced | scripts/utils/tune_once.py:63-67 | the loop over the fenced groups returns the first one that decodes |
| TuneScan.ScanBraces | scripts/utils/tune_once.py:68-86 | the `stack`/`start` loop computes the brace scan |
| TuneScan.DepthStep | scripts/utils/tune_once.py:72-78 | the stack depth after one more character is the depth before it plus that character's change |
| TuneScan.BraceScanSound | scripts/utils/tune_once.py:71-86 | whatever the brace scan returns is the decoding of a balanced chunk of the text |
| TuneScan.OpenStep | scripts/utils/tune_once.py:72-75 | a `{` pushes, and records `start` only on an empty stack |
| TuneScan.CloseStep | scripts/utils/tune_once.py:76-78 | a `}` with more than one open brace pops without trying a chunk |
| TuneScan.OtherStep | scripts/utils/tune_once.py:71-78 | other characters, and a `}` with an empty stack, change nothing |
| TuneScan.ChunkClosed | scripts/utils/tune_once.py:79-81 | the chunk tried when the stack empties starts at `start` and is balanced |
| TuneScan.ScanSkipsToBrace | scripts/utils/tune_once.py:71-78 | text before the first `{` does not affect the scan |
| TuneScan.FirstChunkWins | scripts/utils/tune_once.py:68-86 | when the first top-level chunk is balanced and parses, the scan returns it |
| TuneScan.ChunkPrefix | scripts/utils/tune_once.py:71-83 | inside a balanced chunk the stack never empties before its last `}` |
| TuneOnce.CallLlm | scripts/utils/tune_once.py:35-54 | an empty base URL raises; otherwise the answer is the reply's text content; a failed request, and content that is not a string (which the JSON scan then rejects inside the iteration's `try`), end the iteration |
| TuneOnce.Headers | scripts/utils/tune_once.py:46-49 | the JSON content type is always sent; `Authorization: Bearer <key>` only when a key is set |
| TuneOnce.BacktestOnce | scripts/utils/tune_once.py:151-174 | without an executable the result is 1 and nothing runs; otherwise the process status |
| TuneOnce.RoiTable | scripts/utils/tune_once.py:101 | a dict `minimal_roi` converts when all values are numbers, keeping every key |
| TuneOnce.NormalizePrecedence | scripts/utils/tune_once.py:90-108 | a dict `minimal_roi` wins, then `minimal_roi_0`, then `{"0": 0.012}`; stoploss defaults to -0.11 and nothing is clamped; a value `float` rejects raises |
| TuneOnce.NormalizeEmpty | scripts/utils/tune_once.py:102-107 | an empty object normalises to `({"0": 0.012}, -0.11)` |
| TuneOnce.LineMatchAt | scripts/utils/tune_once.py:117-118 | a multi-line match of either assignment pattern starting at `i` is non-empty and inside the text |
| TuneOnce.RoiEnd | scripts/utils/tune_once.py:117 | the ROI pattern's lazy `{.*?}` ends at the first `}` after the brace |
| TuneOnce.StopEnd | scripts/utils/tune_once.py:118 | the stop-loss pattern ends after its digits and the optional fraction |
| TuneOnce.FirstLineMatch | scripts/utils/tune_once.py:117-118 | `re.search` finds the leftmost match, and no match means none anywhere |
| TuneOnce.FirstSome | scripts/utils/tune_once.py:117-118 | the first index where the search succeeds, with none before it |
| TuneOnce.ParseTemplate | scripts/utils/tune_once.py:127-139 | a compiled replacement template refers only to groups the pattern has; `re.sub` compiles it before searching |
| TuneOnce.PlainTemplate | scripts/utils/tune_once.py:127-139 | a template without a backslash compiles to text that fills in as itself |
| TuneOnce.PlainPrefixRaises | scripts/utils/tune_once.py:127-139 | a bad escape after backslash-free text makes the whole template fail |
| TuneOnce.JsonEscapesInTemplates | scripts/utils/tune_once.py:116-131 | the `\"` that `json.dumps` writes stays as written, `\\` becomes one backslash, and the `\u` escape of a non-ASCII character is rejected |
| TuneOnce.UnicodeEscapeRaises | scripts/utils/tune_once.py:127-133 | a `\u` in a replacement template makes compiling it raise |
| TuneOnce.SubFirst | scripts/utils/tune_once.py:127-139 | `re.sub(..., count=1)`: a template with a bad escape raises whether or not the pattern matches; with no match the text is kept; otherwise only the first match is replaced by the template with its escapes and group references expanded |
| TuneOnce.SubFirstPlain | scripts/utils/tune_once.py:127-139 | with a backslash-free template, `re.sub(count=1)` puts the template as written in place of the first match |
| TuneOnce.Patch | scripts/utils/tune_once.py:111-148 | raises when either assignment is missing, and otherwise when either replacement template has a bad escape (such as the `\u` that `json.dumps` writes for a non-ASCII key); else the text after both substitutions, written only when it changed |
| TuneOnce.NonAsciiKeyRaises | scripts/utils/tune_once.py:116-133 | once both assignments exist, a ROI dict whose JSON needs a `\u` escape makes patching raise |
| TuneOnce.EscapedRoiTemplate | scripts/utils/tune_once.py:116-133 | a ROI replacement line whose JSON holds a `\u` escape, with no backslash before it, is not a valid substitution template |
| TuneOnce.PatchRoiFirstOnly | scripts/utils/tune_once.py:127-133 | only the first ROI assignment is replaced; text before it had no match and text after it is kept |
| TuneOnce.PatchEatsBlankLines | scripts/utils/tune_once.py:117-131 | the leading `^\s*` also takes the blank lines before the assignment, which the replacement drops |
| TuneOnce.BlankLineMatches | scripts/utils/tune_once.py:117 | on that example the leftmost match starts at the first blank line's end |
| TuneOnce.ProfitGroupAt | scripts/utils/tune_once.py:307 | a profit match at `i` starts with the label and captures an optional minus, digits, a point and digits |
| TuneOnce.FirstProfitGroup | scripts/utils/tune_once.py:307-311 | `re.search` for the profit line finds the leftmost match, and none means none anywhere |
| TuneOnce.GroupConverts | scripts/utils/tune_once.py:308-309 | the captured group always converts with `float` |
| TuneOnce.ProfitSentinel | scripts/utils/tune_once.py:305-324 | the row with an ASCII bar wins, then the row with a box-drawing bar; with neither the result is minus infinity and the output is appended to the debug file |
| TuneOnce.Window | scripts/utils/tune_once.py:231-233 | iteration `i` covers `[base + i*d, base + (i+1)*d]` days |
| TuneOnce.WindowsAdjacent | scripts/utils/tune_once.py:231-233 | each window ends where the next one starts |
| TuneOnce.Feedback | scripts/utils/tune_once.py:236-241 | feedback is empty on the first iteration and otherwise quotes the last profit |
| TuneOnce.Spec | scripts/utils/tune_once.py:242-249 | the prompt starts with the fixed instructions and is exactly them when there is no feedback |
| TuneOnce.BacktestArgs | scripts/utils/tune_once.py:257-273 | the 14 backtest arguments carry the iteration's timeframe and window |
| TuneOnce.Tuner.constructor | scripts/utils/tune_once.py:219-221 | the best profit starts at minus infinity with no best parameters and no last profit |
| TuneOnce.Prepare | scripts/utils/tune_once.py:250-256 | ask, scan (`or {}`), normalise and patch; an exception at any step, a missing assignment or a bad template included, gives no parameters and keeps the strategy; the strategy changes only when patching rewrote it |
| TuneOnce.BestOverSnoc | scripts/utils/tune_once.py:288-295 | one more trial keeps the best the maximum: a strictly greater profit takes over with its parameters, otherwise the best stays |
| TuneOnce.ScoredStep | scripts/utils/tune_once.py:222-295 | a scored iteration keeps the run's best the maximum over its trials, each trial within the run's timeframes and windows |
| TuneOnce.TuneStep | scripts/utils/tune_once.py:249-297 | one iteration on the tuner's state: it aborts only without an executable, and then adds no trial; it adds at most one trial; without a trial the best is unchanged, and with one the best stays the maximum over the trials |
| TuneOnce.RunFromTrials | scripts/utils/tune_once.py:224-297 | the iterations from a given one on only add trials; the fold stops early only without an executable, and then no trial is added and the best is unchanged |
| TuneOnce.IdleStep | scripts/utils/tune_once.py:250-258 | without an executable an iteration aborts exactly when `Prepare` yields parameters, and otherwise leaves the state as it was |
| TuneOnce.IdleRun | scripts/utils/tune_once.py:224-258 | without an executable the fold stops at an iteration whose reply yields parameters, and otherwise passes to the next iteration with the same state |
| TuneOnce.NoExecutableKeeps | scripts/utils/tune_once.py:224-258 | without an executable a run that does not stop early leaves the whole state as it was |
| TuneOnce.NoExecutableStops | scripts/utils/tune_once.py:224-258 | without an executable the run returns 1 exactly when the reply of some remaining iteration, asked with the unchanged prompt, yields parameters for the unchanged strategy |
| TuneOnce.Tuner.Score | scripts/utils/tune_once.py:288-295 | the parsed profit becomes the last profit and is recorded as a trial; the best pair is replaced exactly on a strictly greater profit |
| TuneOnce.Tuner.Record | scripts/utils/tune_once.py:292-295 | best profit and parameters change only on a strictly greater profit; the last profit is always recorded |
| TuneOnce.Tuner.PatchStrategy | scripts/utils/tune_once.py:111-148 | patching succeeds exactly when both assignments exist and both templates are valid; the strategy file is rewritten only when the patched text differs, and no score changes |
| TuneOnce.Tuner.Iteration | scripts/utils/tune_once.py:228-297 | the new state and the abort flag are `TuneStep` of the old state: the strategy is what `Prepare` leaves; an exception there changes no score; without an executable the iteration aborts after patching; otherwise the parsed profit becomes the last profit and a trial with this timeframe and window, and replaces the best exactly when strictly greater |
| TuneOnce.Tuner.Run | scripts/utils/tune_once.py:222-301 | the new state is `RunFrom` over every timeframe and iteration, with reply `replies(t, i, prompt)` for iteration `i` of timeframe `t`, and the status is 1 exactly when that fold stopped early, which happens only without an executable and exactly when some iteration patched the strategy; the best profit and parameters are the maximum over the starting best and every trial of the run, each trial naming one of the timeframes and one iteration's window |
| MemoryStore.Load | src/agents/utils/mcp_memory_client.py:35-42 | a readable document is returned as it is; a missing or corrupt file loads as `{}` |
| MemoryStore.Lookup | src/agents/utils/mcp_memory_client.py:67-76 | `data.get(key)`: the stored value, or `None` when the key is absent (or `get` raises on a non-dict) |
| MemoryStore.Put | src/agents/utils/mcp_memory_client.py:54-59 | `data[key] = value` sets that key and leaves every other key and value unchanged; a non-dict document raises |
| MemoryStore.Remove | src/agents/utils/mcp_memory_client.py:78-90 | a present key is removed and nothing else; an absent key is reported as such; only a non-dict document raises |
| MemoryStore.Append | src/agents/utils/mcp_memory_client.py:95-104 | the key ends with a list whose last element is the value; other keys are unchanged |
| MemoryStore.AppendExtends | src/agents/utils/mcp_memory_client.py:104 | an existing list grows by exactly the value |
| MemoryStore.AppendWraps | src/agents/utils/mcp_memory_client.py:101-104 | a non-list value `x` becomes `[x, value]` (an absent key becomes `[value]` by `Append`'s contract) |
| MemoryStore.MemoryClient.constructor | src/agents/utils/mcp_memory_client.py:26-33 | a missing store file is created as `{}`; an existing one is left as it is |
| MemoryStore.MemoryClient.PutKey | src/agents/utils/mcp_memory_client.py:54-65 | on success the file holds the old document with `key` set; a failed save or an exception reports False and leaves the file |
| MemoryStore.MemoryClient.GetKey | src/agents/utils/mcp_memory_client.py:67-76 | the value under the key, or `None`; the file is never changed |
| MemoryStore.MemoryClient.DeleteKey | src/agents/utils/mcp_memory_client.py:78-93 | an absent key reports True without rewriting; a present key is removed alone when the save succeeds |
| MemoryStore.MemoryClient.AppendKey | src/agents/utils/mcp_memory_client.py:95-111 | on success the file holds the appended document; otherwise False and the file unchanged |
| MemoryStore.MemoryClient.AllKeys | src/agents/utils/mcp_memory_client.py:113-122 | exactly the current keys, each once |
| MemoryStore.PutGetDeleteGet | tests/fixtures/test_mcp_memory_client.py:24-37 | put returns True, get returns the value, delete returns True and a second get returns `None` |
| MemoryStore.PutOnFreshStore | src/agents/utils/mcp_memory_client.py:35-59 | after a missing or corrupt file, put leaves a store holding only that key |
| MemoryStore.PutThenLookup | src/agents/utils/mcp_memory_client.py:54-76 | put then get returns the value; other keys read as before |
| MemoryStore.RemoveThenLookup | src/agents/utils/mcp_memory_client.py:78-83 | after removal the key reads as `None`; other keys read as before |
| MemoryServer.Server.constructor | scripts/utils/minimal_mcp_server.py:13 | the server starts with an empty memory |
| MemoryServer.SlotIffEqual | scripts/utils/minimal_mcp_server.py:22 | two hashable keys share a dict slot exactly when Python finds them equal, as `True == 1` |
| MemoryServer.Server.HandlePut | scripts/utils/minimal_mcp_server.py:17-24 | a missing body or an unhashable key raises; a null key replies 400; otherwise the key's dict slot (shared by `true` and `1`) takes the value, overwriting, and the reply is ok |
| MemoryServer.Server.HandleGet | scripts/utils/minimal_mcp_server.py:28-31 | replies the stored value or null, without changing the memory |
| MemoryServer.Server.HandleDelete | scripts/utils/minimal_mcp_server.py:35-41 | a missing body or an unhashable key raises; a key whose slot is present is removed with ok; any other key replies 404 and nothing changes |
| MemoryServer.PutGetDelete | scripts/utils/minimal_mcp_server.py:17-41 | put then get returns the value; delete then get returns null |
| MemoryServer.BoolDeletesNumber | scripts/utils/minimal_mcp_server.py:17-41 | a value put under the key `1` is deleted by the key `true` |
| WalkForward.PeriodAt | scripts/utils/walk_forward_validation.py:32-37 | train end is test start, training lasts `30*train_months` days and testing `30*test_months` days |
| WalkForward.PeriodsFromShape | scripts/utils/walk_forward_validation.py:29-51 | period `k` starts `k` steps after the first, ends by `end`, and generation stops at the first window that does not fit |
| WalkForward.Generate | scripts/utils/walk_forward_validation.py:17-53 | the `while current < end` loop computes the period list, for every input on which it terminates |
| WalkForward.PeriodShape | scripts/utils/walk_forward_validation.py:30-48 | every period has the stated lengths, ends by `end` and starts at `start + k*30*step_months` |
| WalkForward.StartsIncrease | scripts/utils/walk_forward_validation.py:51 | with a positive step the periods' starts strictly increase |
| WalkForward.StopsAtFirstOverrun | scripts/utils/walk_forward_validation.py:40-41 | no period is emitted after the first window that overruns `end` |
| WalkForward.EmptyWhenStartNotBefore | scripts/utils/walk_forward_validation.py:30 | with `start >= end` the loop stops at once and the list is empty |
| WalkForward.CsvRows | scripts/utils/walk_forward_validation.py:97-98 | one row per remaining period, numbered on from `k + 1` |
| WalkForward.WriteCsv | scripts/utils/walk_forward_validation.py:95-98 | a header, then row `j` is period `j`, numbered from 1 in generation order |
| WalkForward.CsvRowNumber | scripts/utils/walk_forward_validation.py:98 | each row starts with its number and a comma |
| WalkForward.BashBlock | scripts/utils/walk_forward_validation.py:77-80 | each period prints a comment, the two range assignments and a blank line |
| PatchUtils.DropLast3 | src/agents/utils/patch_utils.py:30 | `txt[:-3]`: the text without its last three characters, empty when shorter |
| PatchUtils.SanitizeClean | src/agents/utils/patch_utils.py:23-35 | the sanitised text has no leading or trailing whitespace and no `\r` |
| PatchUtils.NormalizedClean | src/agents/utils/patch_utils.py:34 | replacing `\r\n`, then `\r`, by `\n` leaves no `\r` |
| PatchUtils.SanitizePlain | src/agents/utils/patch_utils.py:23-35 | an input with no fences, no `patch` prefix and no `\r` maps to its stripped self |
| PatchUtils.NoCarriageReturn | src/agents/utils/patch_utils.py:34 | newline normalisation does nothing to a text without `\r` |
| PatchUtils.UnfenceBlock | src/agents/utils/patch_utils.py:25-30 | a fenced block loses everything through its first newline and its last three characters |
| PatchUtils.SanitizeFenced | src/agents/utils/patch_utils.py:23-35 | a fenced block with a language line sanitises to its stripped body |
| PatchUtils.SanitizeTagged | src/agents/utils/patch_utils.py:32-34 | a leading `patch\n` in any letter case is removed once, before newline normalisation |
| PatchUtils.UntaggedTag | src/agents/utils/patch_utils.py:32-33 | the case-insensitive tag test and `txt[6:]` remove exactly the tag |
| PatchUtils.Basename | src/agents/utils/patch_utils.py:46 | `os.path.basename`: the part after the last `/`, with no `/` in it |
| PatchUtils.BackupCollides | src/agents/utils/patch_utils.py:46 | files with the same name in different directories share one backup path |
| PatchUtils.BasenameOfJoin | src/agents/utils/patch_utils.py:46 | the basename of `dir/name` is `name` |
| PatchUtils.Attempts | src/agents/utils/patch_utils.py:101-106 | four strategies, each ending with the temporary patch path |
| PatchUtils.Tried | src/agents/utils/patch_utils.py:107-127 | at most one run per strategy; a success ran at least one and a failure ran them all |
| PatchUtils.TriedStopsAtFirstSuccess | src/agents/utils/patch_utils.py:107-127 | the strategies that ran are those up to the first success: each earlier one failed on the tree it saw, and the last one's result, tree and output are the trial's |
| PatchUtils.TriedWithoutEffect | src/agents/utils/patch_utils.py:107-127 | when no command touches the tree, trying the strategies leaves it as it was |
| PatchUtils.Workspace.constructor | src/agents/utils/patch_utils.py:38-49 | the workspace starts with the given files and no command run |
| PatchUtils.Workspace.Backup | src/agents/utils/patch_utils.py:38-49 | the file is copied to `BACKUP_DIR/basename`; a missing file raises and changes nothing |
| PatchUtils.Workspace.Rollback | src/agents/utils/patch_utils.py:135-142 | False when there is no backup; otherwise the backup is copied back and True |
| PatchUtils.Workspace.TryStrategies | src/agents/utils/patch_utils.py:107-127 | strategies run in order up to the first success; if all fail the last output (first 5000 characters) is written to the failure log |
| PatchUtils.Workspace.ApplyDiff | src/agents/utils/patch_utils.py:75-132 | the diff path: write the temporary patch, try the strategies, and remove the temporary file in every case |
| PatchUtils.DiffWithoutEffect | src/agents/utils/patch_utils.py:75-132 | when no command touches the tree, the diff path changes at most the failure log, the temporary patch being gone afterwards |
| PatchUtils.Workspace.ApplyPatch | src/agents/utils/patch_utils.py:52-132 | backup first; a non-diff suggestion is written verbatim and returns True; a diff goes through the strategies |
| PatchUtils.Workspace.ApplyProjectPatch | src/agents/utils/patch_utils.py:145-205 | the project patch tries the same four strategies, writes its own failure log and removes the temporary file |
| PatchUtils.ApplyThenRollback | src/agents/utils/patch_utils.py:52-142 | a full-file update followed by a rollback restores the original text |
| StrategyLab.CodeSpan | src/agents/trading/strategy_lab.py:23 | the block runs from after the first "```python" and its white space to the next "```" |
| StrategyLab.ExtractCode | src/agents/trading/strategy_lab.py:41-42 | the stripped block text, or `None` when there is no block (the utils copy is identical) |
| StrategyLab.BeforeFirst | src/agents/trading/strategy_lab.py:23 | the text before the first occurrence holds no occurrence |
| StrategyLab.ExtractedHasNoFence | src/agents/trading/strategy_lab.py:23-42 | extracted code never contains a closing fence |
| StrategyLab.SpanWord | src/agents/trading/strategy_lab.py:63 | `[A-Za-z0-9_]+` takes the longest run of word characters |
| StrategyLab.ClassAt | src/agents/trading/strategy_lab.py:63 | a class match captures a non-empty word |
| StrategyLab.FirstClass | src/agents/trading/strategy_lab.py:63-64 | `re.search` finds the leftmost `class X(IStrategy):`, and none means none anywhere |
| StrategyLab.FilenameParts | src/agents/trading/strategy_lab.py:63-66 | the name is `<class or GeneratedStrategy>_<timestamp digits>.py` and splits back into a word and the timestamp (the utils copy is identical) |
| StrategyLab.LoadPromptConfig | src/agents/trading/strategy_lab.py:81-94 | a missing file raises FileNotFoundError; a returned pair has both prompts non-empty |
| StrategyLab.PromptPrecedence | src/agents/trading/strategy_lab.py:87-94 | `agents.StrategyLab` values win over top-level keys when truthy; a missing or empty prompt raises ValueError |
| StrategyLab.ResolveDir | src/agents/trading/strategy_lab.py:139-142 | the configured directory is used only when expansion changed it and left it non-blank; otherwise the default |
| StrategyLab.Run | src/agents/trading/strategy_lab.py:107-148 | a written strategy has non-empty code (an empty or missing block exits) and the class-based file name; a non-empty spec is the user prompt; each loading failure ends the run with its own error, a failed request with the client's, and content that is not a string with TypeError from the code search |
| PackageReview.MatchAny | scripts/utils/package_for_ai_review.py:52-53 | true exactly when some pattern matches |
| PackageReview.MatchAnyConcat | scripts/utils/package_for_ai_review.py:52-53 | matching a concatenated list is matching either part |
| PackageReview.InsertSorted | scripts/utils/package_for_ai_review.py:64 | inserting a new path keeps the list sorted by lower-cased path, free of duplicates and with the path added |
| PackageReview.IterCandidates | scripts/utils/package_for_ai_review.py:56-64 | the candidates are exactly the files found, without duplicates, sorted by lower-cased path |
| PackageReview.Reason | scripts/utils/package_for_ai_review.py:82-91 | excluded first, then zero bytes, then over `max_mb` MiB when `max_mb` is not 0; no reason means selected |
| PackageReview.SelectFiles | scripts/utils/package_for_ai_review.py:80-92 | the classification loop computes the selected and skipped lists in candidate order |
| PackageReview.ClassifiedOnce | scripts/utils/package_for_ai_review.py:80-92 | each candidate lands in exactly one of the two lists |
| PackageReview.SelectedIffNoReason | scripts/utils/package_for_ai_review.py:80-92 | a candidate is selected exactly when no rule applies, and otherwise skipped with the first rule's reason |
| PackageReview.SelectedPaths | scripts/utils/package_for_ai_review.py:92 | every selected entry is a candidate that no rule skips, with its size |
| PackageReview.SkippedPaths | scripts/utils/package_for_ai_review.py:82-91 | every skipped entry is a candidate with the reason the first applicable rule gives |
| PackageReview.NoSizeLimit | scripts/utils/package_for_ai_review.py:89 | with `max_mb = 0` nothing is skipped for its size |
| PackageReview.StampFor | scripts/utils/package_for_ai_review.py:104-109 | the fixed REPRO_TS stamp exactly in reproducible mode |
| PackageReview.WriteMembers | scripts/utils/package_for_ai_review.py:101-110 | one archive member and one manifest entry per selected file, in selection order |
| PackageReview.MakeZip | scripts/utils/package_for_ai_review.py:67-129 | a dry run reports the selection and skips without an archive; otherwise the manifest count is the number of included files and reproducible mode stamps every member |
| PackageReview.Effective | scripts/utils/package_for_ai_review.py:151-152 | the effective list is the defaults followed by the extras |
| PackageReview.ExtrasOnlyAdd | scripts/utils/package_for_ai_review.py:151-152 | extra exclude patterns never un-exclude a path the defaults exclude |
| ParseReport.Get | scripts/utils/parse_report.py:14-18 | the value of the first listed key present in a dict, even a falsy one; the default when none is present or the document is not a dict |
| ParseReport.GetSkipsHead | scripts/utils/parse_report.py:15-17 | an absent first key passes the search on to the remaining keys |
| ParseReport.GetKeepsFalsy | scripts/utils/parse_report.py:16-17 | a present but falsy first key is returned, not skipped |
| ParseReport.FirstDict | scripts/utils/parse_report.py:21-26 | a dict is returned as it is, a list whose head is a dict gives the head, anything else `None` |
| ParseReport.Newest | scripts/utils/parse_report.py:38-42 | the report with the greatest mtime, the first of them on ties (the sort is stable) |
| ParseReport.PickFile | scripts/utils/parse_report.py:29-47 | an existing explicit path wins, then the newest report, then `.last_result.json`; `None` only when all three are missing |
| ParseReport.NewestReportWins | scripts/utils/parse_report.py:36-42 | without an explicit path, an existing reports directory with reports gives its newest one |
| ParseReport.Chain | scripts/utils/parse_report.py:111-130 | `b.get(a, cur) or b.get(c, cur)`: a truthy primary wins, a falsy one falls through to the secondary key |
| ParseReport.MetricsPaths | scripts/utils/parse_report.py:98-103 | the four candidate metric places, in order |
| ParseReport.QuickReport | scripts/utils/parse_report.py:65-139 | the metric loop computes the report fields |
| ParseReport.StepKeeps | scripts/utils/parse_report.py:104-130 | a metrics block without any of a field's keys leaves that field |
| ParseReport.ApplyAllKeeps | scripts/utils/parse_report.py:104-130 | blocks without any of a field's keys leave that field through the whole loop |
| ParseReport.DashUnlessSupplied | scripts/utils/parse_report.py:67-76 | every displayed metric stays "-" unless some source supplies one of its keys |
| ParseReport.FirstSourcesDash | scripts/utils/parse_report.py:78-95 | the comparison row and the top-level name keep an unsupplied field at "-" |
| ParseReport.LaterSourcesKeep | scripts/utils/parse_report.py:97-139 | the metrics blocks and the results dict keep an unsupplied field as it was |
| ParseReport.SourcesLayout | scripts/utils/parse_report.py:98-103 | each metric source is a dict that a key of the document holds |
| ParseReport.ComparisonKeeps | scripts/utils/parse_report.py:79-90 | a comparison row without a field's keys leaves it at "-" |
| ParseReport.FillKeeps | scripts/utils/parse_report.py:94-95 | the top-level strategy lookup only touches the strategy field |
| ParseReport.ResultsKeeps | scripts/utils/parse_report.py:133-139 | a results dict without a field's keys leaves that field |
| ParseReport.ResultsOverride | scripts/utils/parse_report.py:133-139 | the results dict is applied last, its `total_trades`, `profit_abs` and `profit_total` overriding everything before |
| ParseReport.FalsyFallsThrough | scripts/utils/parse_report.py:111 | a falsy `profit_factor` falls through to `pf` |
| Reporting.MaxName | src/agents/utils/reporting.py:13-14 | the greatest name in lexicographic order, one of the names |
| Reporting.LatestRunDir | src/agents/utils/reporting.py:10-14 | `None` exactly when the root is missing or has no subdirectory; otherwise the lexicographically greatest directory |
| Reporting.LatestIsUnique | src/agents/utils/reporting.py:13-14 | any directory above all others is the one returned |
| Reporting.Summarize | src/agents/utils/reporting.py:17-30 | the summary always has exactly the six keys; a document that is not a dict, or a non-dict `results`, raises |
| Reporting.SummaryFallbacks | src/agents/utils/reporting.py:20-29 | trades is the list length, else the value or 0; metrics come from `results` when present; `profit_total` falls back to `total_profit`; absent metrics are `None` |
| Reporting.ReportLatest | src/agents/utils/reporting.py:33-52 | a report names the latest run and its first strategy folder; no runs exactly when there is no latest run |
| LlmLogger.Denominator | scripts/utils/llm_logger.py:125-126 | `max(request_count, 1)`: at least 1 and the request count when there are requests |
| LlmLogger.RequestData | scripts/utils/llm_logger.py:89-94 | the record holds model, tokens and duration, keyword arguments overriding them |
| LlmLogger.LevelNumber | scripts/utils/llm_logger.py:45 | only `debug` records fall below the INFO threshold the logger is set to |
| LlmLogger.RecordLevel | scripts/utils/llm_logger.py:117 | a record's level is one of the four standard names, with the number of the method called; a standard name is kept |
| LlmLogger.Logger.constructor | scripts/utils/llm_logger.py:37-39 | all three counters start at 0 |
| LlmLogger.Logger.LogRequest | scripts/utils/llm_logger.py:80-103 | an errored request increments only the error count; a successful one adds 1 request and its tokens |
| LlmLogger.Logger.LogSystem | scripts/utils/llm_logger.py:105-117 | the counters stay; an unknown level raises and logs nothing; `debug` falls below the INFO threshold and is dropped; any other level appends one entry with its record level, the event and the timestamp followed by the extra fields |
| LlmLogger.Logger.GetMetrics | scripts/utils/llm_logger.py:119-127 | `error_rate = errors / max(requests, 1)` and `avg_tokens = tokens / max(requests, 1)` |
| LlmLogger.CountersNeverDecrease | scripts/utils/llm_logger.py:80-117 | no counter ever decreases |
| LlmLogger.ErrorRateAboveOne | scripts/utils/llm_logger.py:125 | two errors and no successes give an error rate of 2, since only successes count in the denominator |
| LlmClient.PlaceholderLength | src/services/llm_client.py:57 | a `${...}` value is at least three characters long |
| LlmClient.ExpandValue | src/services/llm_client.py:57-59 | only a string of the form `${NAME}` is replaced, by the environment value, and an unset NAME leaves it as it is |
| LlmClient.Expanded | src/services/llm_client.py:56-59 | expansion keeps the section's keys |
| LlmClient.ExpandSection | src/services/llm_client.py:56-59 | the in-place loop over the section computes the expanded section |
| LlmClient.ExpandedStep | src/services/llm_client.py:57-59 | one key's expansion keeps the loop invariant |
| LlmClient.LoadCfg | src/services/llm_client.py:48-60 | a missing file raises FileNotFoundError; a document without `llm` gives `{}` |
| LlmClient.LoadCfgExpansion | src/services/llm_client.py:54-60 | each value of the `llm` section is expanded when it is a set placeholder and kept otherwise |
| LlmClient.NewClient | src/services/llm_client.py:66-74 | ValueError unless base_url, model and api_key are all truthy; defaults 0.7, 0.95 and 1024 |
| LlmClient.Chat | src/services/llm_client.py:76-104 | the reply's content is returned and logged whatever its JSON type (a string as itself, `null` logged as `None`); any failure logs an `[ERROR]` entry and raises |
| Watchdog.FilePathsStep | src/agents/system/watchdog_agent.py:27-29 | one more file adds its joined path exactly when it ends in ".py" |
| Watchdog.OnlyPython | src/agents/system/watchdog_agent.py:28 | only files whose names end in ".py" are considered |
| Watchdog.WatchdogAgent.constructor | src/agents/system/watchdog_agent.py:13-21 | `watch_dirs or ["."]`, and an empty mtime map |
| Watchdog.WatchdogAgent.ScanFiles | src/agents/system/watchdog_agent.py:23-37 | the map gains every visited path at its current mtime and keeps the rest; the result is True exactly when a known path's mtime differed |
| Watchdog.WatchdogAgent.ScanWalk | src/agents/system/watchdog_agent.py:26-36 | the loop over the walk's directories keeps the scan invariant |
| Watchdog.WatchdogAgent.ScanFilesOf | src/agents/system/watchdog_agent.py:27-36 | the loop over one directory's files keeps the scan invariant |
| Watchdog.WatchdogAgent.ScanFile | src/agents/system/watchdog_agent.py:28-36 | one file keeps the scan invariant |
| Watchdog.WatchdogAgent.Observe | src/agents/system/watchdog_agent.py:31-36 | a new path is recorded silently; a known path with a different mtime is updated and reported |
| Watchdog.ObserveKeeps | src/agents/system/watchdog_agent.py:31-36 | observing a path extends the scan invariant to it |
| AutoPatchLoop.NeedsImprovement | scripts/utils/auto_patch_loop.py:97-115 | an empty snapshot never needs improvement |
| AutoPatchLoop.NeedsImprovementIff | scripts/utils/auto_patch_loop.py:97-115 | a non-empty numeric snapshot needs improvement exactly when a service, config or model flag is falsy, memory is at least 80, CPU at least 70 or a free-disk reading at most 10 (missing readings count as 0, 0 and infinity) |
| AutoPatchLoop.InsertByPriority | scripts/utils/auto_patch_loop.py:155 | inserting into an ascending list keeps it ascending and adds exactly that suggestion |
| AutoPatchLoop.BelowLast | scripts/utils/auto_patch_loop.py:155 | a suggestion ranked below the last one goes before it and the order stays ascending |
| AutoPatchLoop.SortByPriority | scripts/utils/auto_patch_loop.py:155 | the result is in ascending priority and a permutation of the input |
| AutoPatchLoop.RankAll | scripts/utils/auto_patch_loop.py:155 | every suggestion is a dict with a numeric priority, kept in place, or ranking fails |
| AutoPatchLoop.GetSuggestions | scripts/utils/auto_patch_loop.py:117-163 | the suggestions are in ascending priority; a non-empty result is a permutation of the reply's ranked JSON list; any failure gives `[]` |
| AutoPatchLoop.UpdateExisting | scripts/utils/auto_patch_loop.py:256-260 | the config keeps its key set; keys it has take the suggested value, the others keep theirs |
| AutoPatchLoop.SetParameters | scripts/utils/auto_patch_loop.py:295-297 | every parameter is set to `str(value)` and the rest of the environment is kept |
| AutoPatchLoop.ApplyOne | scripts/utils/auto_patch_loop.py:176-184 | a suggestion without `method` raises and changes nothing; an unknown method is skipped successfully |
| AutoPatchLoop.MissingMethodFails | scripts/utils/auto_patch_loop.py:167-194 | one suggestion lacking `method` makes the whole application fail |
| AutoPatchLoop.FailureStops | scripts/utils/auto_patch_loop.py:167-194 | after the first failure no later suggestion has any effect |
| AutoPatchLoop.ApplyAllStep | scripts/utils/auto_patch_loop.py:165-194 | while every suggestion so far succeeded, applying one more is applying it to the environment they left |
| AutoPatchLoop.UnknownSkipped | scripts/utils/auto_patch_loop.py:176-186 | suggestions with only unknown methods succeed and change nothing |
| AutoPatchLoop.ConfigKeysKept | scripts/utils/auto_patch_loop.py:257-260 | applying suggestions never adds or drops a key of the server config |
| AutoPatchLoop.PatchLoop.constructor | scripts/utils/auto_patch_loop.py:22-27 | an empty patch history and an improvement count of 0 |
| AutoPatchLoop.PatchLoop.ApplyImprovements | scripts/utils/auto_patch_loop.py:165-194 | the new config and environment and the success flag are those of applying the suggestions in order, stopping at the first failure; count and history unchanged |
| AutoPatchLoop.PatchLoop.Apply | scripts/utils/auto_patch_loop.py:176-184 | one suggestion dispatched on its method, as `ApplyOne` describes |
| AutoPatchLoop.PatchLoop.UpdateConfig | scripts/utils/auto_patch_loop.py:248-263 | only keys the config already has are updated; nothing else changes |
| AutoPatchLoop.PatchLoop.RunCycle | scripts/utils/auto_patch_loop.py:52-71 | `Raised` exactly when reading the verification raises and `NotNeeded` exactly when no improvement is needed, both leaving config and environment; otherwise these become those of applying the sorted suggestions in order, `Failed` exactly when one raises; on success the count goes up by one and the history gains one record with the timestamp, the suggestions and the new count; otherwise neither changes |
| PatchVerifier.Iterated | scripts/utils/patch_verifier.py:120 | a `for` loop reaches a list's items; only an empty dict or string can also be looped over, giving nothing |
| PatchVerifier.ValidatePatch | scripts/utils/patch_verifier.py:112-115 | a dict is valid exactly when it holds description, changes and verification; a value on which `in` raises cannot be validated |
| PatchVerifier.SliceIndex | scripts/utils/patch_verifier.py:255 | Python's slice bound: clamped to the length, a negative one counted from the end and at least 0 |
| PatchVerifier.InsertRemovable | scripts/utils/patch_verifier.py:254-255 | an insertion adds exactly the text at the slice index; taking it out gives the content back |
| PatchVerifier.ModsOf | scripts/utils/patch_verifier.py:248-255 | the decoded modifications, one per list entry, or failure when one raises |
| PatchVerifier.ModsOfNone | scripts/utils/patch_verifier.py:248-255 | a modification that raises makes the whole list fail |
| PatchVerifier.IgnoredKeep | scripts/utils/patch_verifier.py:249-255 | modifications of other types leave the content as it was |
| PatchVerifier.AbsentReplaceKeeps | scripts/utils/patch_verifier.py:249-253 | replacing text that does not occur changes nothing |
| PatchVerifier.ApplyModifications | scripts/utils/patch_verifier.py:246-257 | the loop computes the content after all modifications, in order, or fails when one raises |
| PatchVerifier.ApplyStep | scripts/utils/patch_verifier.py:248-255 | one more modification read and applied extends the loop invariant |
| PatchVerifier.LookupIff | scripts/utils/patch_verifier.py:236 | a key is found exactly when some variable has it |
| PatchVerifier.Put | scripts/utils/patch_verifier.py:236 | `env_vars[key] = value`: the key then maps to the value, other keys keep theirs, a new key goes last and an existing one keeps its place |
| PatchVerifier.PutDistinct | scripts/utils/patch_verifier.py:236 | the variables never hold a key twice |
| PatchVerifier.EnvLineIff | scripts/utils/patch_verifier.py:234-236 | a line is read exactly when it holds `=` |
| PatchVerifier.EqualsKept | scripts/utils/patch_verifier.py:235 | stripping a line keeps each of its `=` |
| PatchVerifier.EqualsFound | scripts/utils/patch_verifier.py:235 | an `=` of the stripped line is one of the line's |
| PatchVerifier.FirstEquals | scripts/utils/patch_verifier.py:235 | `split("=", 1)` of a written `KEY=VALUE` line splits after the key when the key has no `=` |
| PatchVerifier.StripNewline | scripts/utils/patch_verifier.py:235 | stripping a written line removes its newline and nothing else when its text has no whitespace at its ends |
| PatchVerifier.LineReadsBack | scripts/utils/patch_verifier.py:234-236 | a written `KEY=VALUE` line of a clean pair is read back as that pair |
| PatchVerifier.EnvText | scripts/utils/patch_verifier.py:242-244 | one `KEY=VALUE` line per variable, in order |
| PatchVerifier.EnvRoundTrip | scripts/utils/patch_verifier.py:230-244 | writing clean variables and reading the file back gives the same variables in the same order |
| PatchVerifier.ParseEnvLast | scripts/utils/patch_verifier.py:233-236 | a last line read as a pair puts that pair into what the earlier lines gave |
| PatchVerifier.Items | scripts/utils/patch_verifier.py:239 | the patch's variables with their `str()` values, each key of the object present |
| PatchVerifier.UpdatesWin | scripts/utils/patch_verifier.py:239 | after the update each variable of the patch has its last given value and every other keeps its old one |
| PatchVerifier.ReadEnv | scripts/utils/patch_verifier.py:230-236 | the reading loop gives the variables of the `.env` lines, a later line overriding |
| PatchVerifier.UpdateVars | scripts/utils/patch_verifier.py:239 | the update loop puts every variable of the patch, in order |
| PatchVerifier.MergeConfig | scripts/utils/patch_verifier.py:216-220 | the config gains exactly the updated keys and keeps the others; the update fails exactly when the config is not a dict or a dict update meets a non-dict |
| PatchVerifier.MergedFields | scripts/utils/patch_verifier.py:207-223 | a dict holding every updated key with its merged value and every other key of the config unchanged is the merged config |
| PatchVerifier.MergeKeepsSubEntries | scripts/utils/patch_verifier.py:217-218 | a dict update sets the entries it names and keeps the existing ones it does not |
| PatchVerifier.StepsStop | scripts/utils/patch_verifier.py:119-134 | after the first change that raises, no later change has any effect |
| PatchVerifier.OtherTypesSkipped | scripts/utils/patch_verifier.py:121-126 | a change of a type other than file, config and env is skipped and succeeds |
| PatchVerifier.ChangesStayInTheirFile | scripts/utils/patch_verifier.py:187-244 | a config change touches only the config, an env change only `.env`, a file change only file contents |
| PatchVerifier.VerifyImprovement | scripts/utils/patch_verifier.py:136-155 | an improvement requires every final config flag and every final model flag to be truthy |
| PatchVerifier.Greater | scripts/utils/patch_verifier.py:147-149 | Python's `>` on two numbers (a bool as 0 or 1) or two strings (by code point); any other pair raises |
| PatchVerifier.MissingReadingIsFull | scripts/utils/patch_verifier.py:147-149 | a missing final memory reading counts as 100, so it passes only against an initial reading of at least 100 |
| PatchVerifier.PatchVerifier.constructor | scripts/utils/patch_verifier.py:32-36 | the verifier starts from the given files, config and `.env` |
| PatchVerifier.PatchVerifier.ApplyFileChange | scripts/utils/patch_verifier.py:187-205 | the new state and outcome are those of the file change |
| PatchVerifier.PatchVerifier.ApplyConfigChange | scripts/utils/patch_verifier.py:207-223 | the new state and outcome are those of the config merge |
| PatchVerifier.PatchVerifier.ApplyEnvChange | scripts/utils/patch_verifier.py:225-244 | the new state and outcome are those of the `.env` update |
| PatchVerifier.PatchVerifier.ApplyChange | scripts/utils/patch_verifier.py:120-126 | one change dispatched on its type |
| PatchVerifier.PatchVerifier.ApplyPatch | scripts/utils/patch_verifier.py:117-134 | the changes in order, stopping at the first that raises, whose earlier effects stay |
| PatchVerifier.PatchVerifier.VerifyAndApply | scripts/utils/patch_verifier.py:38-102 | an invalid patch fails and changes nothing; a valid one is applied; success exactly when the application succeeded, the snapshots show an improvement and the documentation was written; a rollback exactly when the snapshots show none |
| AutoVerify.LStripSet | scripts/utils/auto_verify.py:126 | the left half of `strip(chars)`: the longest suffix not starting with one of the characters |
| AutoVerify.RStripSet | scripts/utils/auto_verify.py:126 | the right half of `strip(chars)`: the longest prefix not ending with one of the characters |
| AutoVerify.VarName | scripts/utils/auto_verify.py:126 | `var.strip("${}")` neither starts nor ends with `$`, `{` or `}` |
| AutoVerify.ServerEnv | scripts/utils/auto_verify.py:124 | the first MCP server's `env` is found only in a dict config holding `mcpServers` |
| AutoVerify.VerifyConfiguration | scripts/utils/auto_verify.py:102-135 | only `config_exists` without a file; otherwise valid exactly when the YAML parses and the server `env` lookup succeeds, complete exactly when valid with name, version, schema and mcpServers, env vars set exactly when valid and every `$` reference names a set variable |
| AutoVerify.PlaceholderName | scripts/utils/auto_verify.py:126 | stripping `${` and `}` from `${NAME}` gives NAME back |
| AutoVerify.PlaceholderNamesVariable | scripts/utils/auto_verify.py:125-128 | a `${NAME}` value is satisfied exactly when NAME is set to a non-empty value |
| AutoVerify.OutputValid | scripts/utils/auto_verify.py:187-191 | output without `choices` is invalid; valid output is a dict holding `choices` |
| AutoVerify.VerifyModel | scripts/utils/auto_verify.py:165-204 | responsive only for a status-200 reply; valid output only when responsive; any exception marks both false |
| AutoVerify.ServiceActions | scripts/utils/auto_verify.py:206-212 | restart the API exactly when it is down, repair the environment exactly when Python is broken, nothing else |
| AutoVerify.BackupChoice | scripts/utils/auto_verify.py:299-317 | no restore without the backup directory or an archive; otherwise the archive with the greatest mtime, the first of them on ties |
| AutoVerify.ConfigActions | scripts/utils/auto_verify.py:214-223 | at most one action: restore when the config is missing, else repair when invalid, else notify when variables are unset; none exactly when all three checks pass |
| AutoVerify.ResourceWarnings | scripts/utils/auto_verify.py:225-249 | a memory warning exactly above 90%, a CPU warning exactly above 80%, a disk warning exactly below 5 GB free; missing readings never warn |
| AutoVerify.ModelActions | scripts/utils/auto_verify.py:251-257 | reload an unresponsive model; switch a responsive model with invalid output to the fallback; nothing exactly when both checks pass |
| AutoVerify.Verifier.constructor | scripts/utils/auto_verify.py:22-26 | no state verified yet |
| AutoVerify.Verifier.RunCycle | scripts/utils/auto_verify.py:51-75 | the actions are the four handlers' in order; the snapshot of the four checks replaces the last one; `MODEL_NAME` becomes `FALLBACK_MODEL` (default "gpt4all") exactly when the model responds with invalid output |
| AutoVerify.Verifier.UpdateState | scripts/utils/auto_verify.py:401-407 | the last verified state is replaced by the new one with its timestamp |
| HardwareConfig.Classify | scripts/utils/test_hardware_config.py:11-15 | a header line also continues an open block, so a second header inside the block is kept |
| HardwareConfig.FirstHeaderFrom | scripts/utils/test_hardware_config.py:10-13 | the first header at or after a line, or none when no later line is one |
| HardwareConfig.ScanBlock | scripts/utils/test_hardware_config.py:9-17 | the scan loop computes the block: the first header and the continuing lines after it, stripped |
| HardwareConfig.ScanLine | scripts/utils/test_hardware_config.py:11-17 | one turn of the loop either ends the scan with the block or keeps the scan invariant |
| HardwareConfig.ScannedAll | scripts/utils/test_hardware_config.py:10-17 | a scan that reaches the end of the file holds the block |
| HardwareConfig.ClassifyAt | scripts/utils/test_hardware_config.py:11-14 | a line's classification, computed on its own |
| HardwareConfig.RunStops | scripts/utils/test_hardware_config.py:14-17 | lines that continue the block and then stop are exactly the lines collected |
| HardwareConfig.RunShape | scripts/utils/test_hardware_config.py:14-17 | the collected lines are a prefix of continuing lines, followed by a line that ends the block or by the end of the file |
| HardwareConfig.LinesBeforeIgnored | scripts/utils/test_hardware_config.py:14-16 | lines before the first header do not affect the block |
| HardwareConfig.HeadersSkipped | scripts/utils/test_hardware_config.py:14-16 | classified lines without a header before the first header leave the block unchanged |
| HardwareConfig.FirstHeaderAt | scripts/utils/test_hardware_config.py:11 | the first header is the header line with no header before it |
| HardwareConfig.BlockEnd | scripts/utils/test_hardware_config.py:14-17 | the block ends at the first line after the header that is not a column-one comment, a blank or a header, or at the end of the file |
| HardwareConfig.BlockLine | scripts/utils/test_hardware_config.py:12-15 | each line of the block is the stripped file line, and each after the header continues it |
| HardwareConfig.FirstHeaderOfLines | scripts/utils/test_hardware_config.py:11 | the block starts at the first line whose stripped text starts with the header |
| HardwareConfig.NotFoundIffNoHeader | scripts/utils/test_hardware_config.py:19-23 | "NOT found" is printed exactly when no line is a header |
| LearningLogSummary.NewestFirst | scripts/utils/print_learning_log_summary.py:25-26 | only five-field rows are printed, and never more rows than the log has |
| LearningLogSummary.NewestFirstSplit | scripts/utils/print_learning_log_summary.py:25 | walking the log backwards meets later rows first |
| LearningLogSummary.NewestFirstMembers | scripts/utils/print_learning_log_summary.py:25-26 | the rows met are exactly the log's five-field rows |
| LearningLogSummary.NewestIsLast | scripts/utils/print_learning_log_summary.py:25 | the last five-field row of the log is printed first |
| LearningLogSummary.Limit | scripts/utils/print_learning_log_summary.py:31-33 | the number of rows printed is at least one, and `n` when `n` is positive |
| LearningLogSummary.Pad | scripts/utils/print_learning_log_summary.py:28-30 | `f"{s:<w}"` keeps the text and pads it to at least the width |
| LearningLogSummary.Output | scripts/utils/print_learning_log_summary.py:14-36 | "No valid summary rows found." appears exactly when no row is printed |
| LearningLogSummary.Summarize | scripts/utils/print_learning_log_summary.py:7-36 | no log gives its message, an empty log says so, otherwise the first `Limit(n)` five-field rows met walking backwards |
| LearningLogSummary.Take | scripts/utils/print_learning_log_summary.py:31-33 | the first `k` elements, or all when there are fewer |
| LearningLogSummary.NoRowsIffNonePrintable | scripts/utils/print_learning_log_summary.py:34-35 | the no-rows message is printed exactly when no row of a non-empty log has five fields |
| LearningLogSummary.NonPositiveLimitPrintsOne | scripts/utils/print_learning_log_summary.py:31-33 | with `n <= 0` the newest five-field row is still printed, since the limit is checked after printing |
| ExportMlLogs.Response | scripts/utils/export_ml_logs_to_jsonl.py:34-36 | a non-empty improvement is the answer; otherwise the trade's result |
| ExportMlLogs.Sample | scripts/utils/export_ml_logs_to_jsonl.py:33-37 | each sample has exactly `prompt` (both rows shown) and `response` |
| ExportMlLogs.Export | scripts/utils/export_ml_logs_to_jsonl.py:25-39 | `min` of the two row counts samples are written, line `i` being the encoded sample of row `i` of each file |
| ExportMlLogs.JoinedStep | scripts/utils/export_ml_logs_to_jsonl.py:37-38 | the text from line `i` on is that line, its newline and the rest |
| ExportMlLogs.LineEnd | scripts/utils/export_ml_logs_to_jsonl.py:38 | the first newline of the text, or its length when none |
| ExportMlLogs.LineEndOf | scripts/utils/export_ml_logs_to_jsonl.py:37-38 | a line without a newline is found whole |
| ExportMlLogs.ReadBack | scripts/utils/export_ml_logs_to_jsonl.py:37-38 | lines without raw newlines, each followed by one, read back as the same lines |
| ExportMlLogs.ExportReadsBack | scripts/utils/export_ml_logs_to_jsonl.py:30-38 | the exported file read back line by line gives exactly the samples, in order, when the encoder writes no raw newline |
| Numeric.RoundHalfEven | src/agents/utils/agents_self_loop_agent.py:370-373 | the nearest integer, never more than half a unit away |
| Numeric.RoundedError | src/agents/trading/self_loop_agent.py:129 | `f"{x:.kf}"` and `round(x, k)` move a value by at most half a unit in the last place |
| Numeric.RoundedExact | src/agents/trading/self_loop_agent.py:129 | a value already on the 10^-k grid is rendered exactly |
| Numeric.FormatFixedShape | src/agents/trading/self_loop_agent.py:129-133 | the rendering is an optional minus, digits, a point and exactly `k` digits |
| Numeric.FormatFixedRoundTrip | src/agents/trading/self_loop_agent.py:129-133 | `float()` of a fixed-point rendering gives back exactly the rounded value |
| Numeric.ParseDotted | scripts/utils/tune_once.py:309-313 | `float("d.f")` is `d + f / 10^len(f)` |
| Numeric.ParseSigned | scripts/utils/tune_once.py:309-313 | an optionally signed `d.f` parses to the signed value of its digits |
| Numeric.ParseFloat | src/agents/utils/agents_self_loop_agent.py:121-122 | blank text raises ValueError |
| Numeric.ParseFloatChars | src/agents/utils/agents_self_loop_agent.py:121 | accepted text, once stripped, holds only ASCII digits, signs, a point and an exponent letter, with at least one digit |
| Numeric.NatToStringValue | src/agents/utils/agents_self_loop_agent.py:372 | `str(n)` is all digits and reads back as `n` |
| Numeric.Trunc | src/agents/utils/agents_self_loop_agent.py:372 | `int(x)` truncates toward zero: within 1 of `x` and of the same sign |
| Text.Find | src/agents/utils/patch_utils.py:27 | `s.find(sub)` is the first occurrence, and found exactly when `sub` occurs |
| Text.LStripSpec | src/agents/utils/patch_utils.py:34 | `lstrip()` removes exactly the leading whitespace |
| Text.RStripSpec | src/agents/utils/patch_utils.py:34 | `rstrip()` removes exactly the trailing whitespace |
| Text.StripIsSlice | scripts/utils/patch_verifier.py:235 | `strip()` leaves a slice of the input with only whitespace around it |
| Text.StripEmptyIff | scripts/utils/test_hardware_config.py:14 | `strip()` leaves nothing exactly when the text is all whitespace |
| Text.Lower | src/agents/utils/patch_utils.py:32 | `lower()` keeps the length and maps each ASCII capital to its small letter, leaving every other character |
| Text.ReplaceAbsent | src/agents/utils/patch_utils.py:34 | replacing a pattern that does not occur changes nothing |
| Text.ReplaceRemovesChar | src/agents/utils/patch_utils.py:34 | replacing a character by text that lacks it removes every copy |
| Text.LastN | src/agents/trading/self_loop_agent_fixed.py:362 | `s[-n:]`: the last `n` elements, or all when shorter |
| Text.LexLeTotal | scripts/utils/package_for_ai_review.py:64 | any two strings are ordered one way or the other |
| Text.LexLeTrans | scripts/utils/package_for_ai_review.py:64 | the string order is transitive |
| Text.LexLeAntisym | src/agents/utils/reporting.py:14 | the string order is antisymmetric, so the greatest name is unique |
| Json.ToFloat | scripts/utils/parse_report.py:50-54 | `float()`, as `num` applies it: a number converts to itself, and null, lists and dicts fail |
| Json.GetOr | scripts/utils/auto_patch_loop.py:103-112 | `d.get(k, default)` is the value when present and the default otherwise |
| Json.Has | scripts/utils/patch_verifier.py:115 | `k in v` tests a dict's keys, a list's elements or a substring, and raises on anything else |
| Json.Or | scripts/utils/parse_report.py:111-130 | `x or y` is `x` when truthy and `y` otherwise |

## Left out

- HTTP requests, subprocesses (freqtrade, git, patch, tar, curl, shell scripts), timeouts and sleeps: their outcomes are parameters.
- The JSON, YAML and CSV parsers and encoders, `fnmatch`, glob expansion, SHA-1, zip archives, `os.path.expandvars` and date parsing and formatting are parameters or uninterpreted inputs.
- Python's `str()` and `repr()` of floats, dicts and lists are parameters.
- Floats are exact reals, so IEEE rounding, NaN and infinities other than the `float("-inf")` sentinel are not modelled.
- Numeric.ParseFloat: Python's `float()` also accepts underscores between digits (`"0_05"`, `"1e1_0"`), decimal digits of other scripts and the words `inf`, `infinity` and `nan`. The model accepts only ASCII decimal text (`ParseFloatChars`), so a field such as `"minimal_roi_0": "0_05"` is treated as non-numeric where Python reads 0.05.
- Json.ToFloat: strings convert through `Numeric.ParseFloat`, so it shares that gap.
- Regular expressions are hand-written matchers. `\d` matches ASCII digits only, where Python's `re` also accepts other Unicode decimal digits.
- The iteration order of a JSON object or YAML mapping is a parameter (`keyOrder`) wherever the output depends on it. Elsewhere dicts are maps.
- YAML mappings with non-string keys are not modelled.
- Logging is not modelled: the log files, rotating handlers, `rotate_logs` and `cleanup_old_logs` of the LLM logger, and the `print` output of the scripts except where printing is the result.
- The endless drivers `run_forever`, `continuous_verify` and `WatchdogAgent.run` are not modelled; one cycle of each is.
- `src/agents/utils/self_heal_mcp_agent.py` and the orchestration-only agents and scripts are not part of this model.
- The effects of `git reset --hard`, the health-check and environment-repair scripts, the cache drop and the documentation files are not modelled. Each shows only as a flag or an action in the result.
- AutoPatchLoop.GetSuggestions: a priority that is not a number or a bool is treated as a failed sort. Python would also sort a list whose priorities are all strings.
- AutoPatchLoop.SortByPriority: proves ascending order and a permutation, but not the stability of Python's sort.
- AutoPatchLoop.PatchLoop.RunCycle: the verification snapshot and the chat reply are inputs. `_get_verification` calls the verifier's checks, which `AutoVerify` models separately.
- `_optimize_resources` lowering the process priority (`nice`) has no effect in the model.
- PatchVerifier.PatchVerifier.VerifyAndApply: on an exception the source takes a fresh snapshot. The model reports the final snapshot it was given.
- PatchVerifier.PatchVerifier.VerifyAndApply: `patch_history` is never appended to by the source, so it is not modelled.
- PatchVerifier.PatchVerifier.VerifyAndApply: `LLMVerifier` in scripts/utils/auto_verify.py has no `_get_verification`, so as written every call raises AttributeError at scripts/utils/patch_verifier.py:50, before the patch is read, and again from the handler at :101, so no `PatchResult` is returned and nothing is applied. The model gives the evidently intended flow, with the snapshots before and after as inputs.
- PatchVerifier.Items: only a `variables` dict is modelled. A list of pairs, which `dict.update` also accepts, is not.
- AutoVerify: `config_complete` is computed but no handler reads it. The verifier's `patch_history` is never used. Neither has an effect beyond the snapshot.
- AutoVerify.Verifier.RunCycle: the resource readings are an input map. `psutil` is not modelled.
- LearningLogSummary.Summarize: with `n <= 0` the source still prints one row, because `count >= n` is checked after printing. This is modelled as written (`NonPositiveLimitPrintsOne`).
- LlmLogger.Logger.GetMetrics: the error rate divides by successful requests only, as written, so it can exceed 1 (`ErrorRateAboveOne`).
- WalkForward.Generate: requires the step to be positive unless generation stops at once. With a step of 0 and a window that fits, the source appends the same period forever. With a negative step it walks the start backwards, appending periods, until `datetime` arithmetic raises OverflowError below year 1. Neither outcome is modelled.
- SelfLoop.RetrySuggest: the conversion never fails in the source, so the retry loop always stops after the first attempt. The loop is modelled in general (`RetryLoop`), and `RetryOnce` shows this.
- StrategyLab: `log_prompt_response` is a logging write, so it is not modelled.
- MemoryStore: a failed write is a fixed property of the storage location, not an I/O error raised mid-operation.
- PatchVerifier.IndexOf: an insert position is any number with an integral value, so the float `2.0` is accepted where Python's slice would raise TypeError; decoded JSON numbers do not keep the int/float distinction.
- Text.Lower: folds ASCII letters only, where Python's `lower()` also folds other scripts. The one use, the `patch\n` tag test, is unaffected: no character outside ASCII lowers to a string starting with one of the tag's letters.
- PatchVerifier.Greater: a memory reading that is a list or a tuple, which Python compares element by element with another list or tuple, is treated as raising.
- `scripts/utils/parse_report.py` defines `num` but `main` never calls it. It is modelled by `Json.ToFloat`.
