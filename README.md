# Jarvis daemon core in Dafny

Jarvis is a supervisory daemon for a set of trading bots. Its control loop
(`Jarvis.run` in jarvis.py) wakes up periodically and does the following:

- It probes every configured bot through the watchdog. A bot is DEAD when its
  screen session is gone, STALE when its trade database has not moved within
  the threshold, and HEALTHY otherwise.
- It watches each bot's loss streak.
- Its reactions (restart a dead bot, pause a bot on a losing streak) go
  through a tiered approval engine. An action type is auto-approved, queued
  for the operator, or forbidden.
- Approved actions are carried out by an executor. The executor maps each
  action type to a handler and turns whatever the handler does into a
  success or failure record.
- Around this core sit:
  - a language-model analyst behind an API budget tracker;
  - a futures monitor that classifies daily candles with "the Strat" and
    watches the New York morning session for an EQ-rejection signal;
  - a chat log and the operator's text commands.

The project has one Dafny module per source file:

| file | module | models |
|---|---|---|
| common.dfy | `Common` | Option, Python's `s[-k:]`, `strip`/`lstrip`/`rstrip`, `find`/`rfind`, `in`, `lower` |
| config.dfy | `Config` | the per-bot configuration section |
| approvals.dfy | `Approvals` | modules/approvals.py: tiers, class `ApprovalSystem` over `queue`/`history` |
| watchdog.dfy | `Watchdog` | modules/watchdog.py: probes, freshness, classification, class `Watchdog` with the restart limiter |
| executor.dfy | `Executor` | modules/executor.py: the handler table, the handlers, `execute_action` |
| analyst.dfy | `Analyst` | modules/analyst.py: loss streak, rolling statistics, the model call, memory document, reply parsing |
| budget.dfy | `Budget` | modules/budget_tracker.py: class `BudgetTracker`, the limits, the dashboard |
| futures.dfy | `Futures` | modules/futures_monitor.py: Strat classification, key levels, signals, class `FuturesMonitor` |
| jarvis.dfy | `Daemon` | jarvis.py: class `Jarvis` with the health pass, loss-streak pass, drain, commands and main loop |

Objects whose fields the source updates in place are classes with those
fields:

- `ApprovalSystem`, `Watchdog`, `BudgetTracker`, `FuturesMonitor`, `Jarvis`.

Their methods carry `modifies` clauses. The approval engine, the watchdog,
the budget tracker and the futures monitor state their whole new state. The
daemon's methods state the fields the health and approval logic reads:

- the health report, the stale-alert map, the approval queue and history,
  the restart history, the timers, `running` and the executed ids, each
  in terms of specification functions (`HealthPass`, `LossPass`,
  `NextTimers`, `DrainEffects`);
- the chat log only by its bound and, where a command confirms itself
  (`status`, `pause`, `resume`), by its last entry.

Lemmas then prove what the source promises about those functions. Loops of
the source are loops here, each with its invariants:

- `approve_action`'s search;
- the health-report loop;
- `_detect_loss_streak`;
- `_call_haiku`'s text accumulation;
- the health and loss-streak passes;
- the drain;
- the main loop.

Some things become parameters instead of being modelled:

- the outside world: clocks, subprocesses, SQLite, HTTP, the file system,
  git;
- JSON decoding, which is a partial function.

The daemon's `World` value bundles everything one loop cycle reads. An
exception in a cycle is a `Fault` that names the stage at which it is
raised.

Times are integer seconds. Prices and costs are exact `real`s. An action id
is the millisecond clock reading it is built from.

## Model

| member | source | states |
|---|---|---|
| `Common.PyTail` | modules/approvals.py:152-154 | Python's `s[-k:]`: for k > 0 the last min(k, len) elements, for k == 0 the whole sequence, for k < 0 all but the first -k |
| `Common.AppendKeepLast` | jarvis.py:127-129 | appending and keeping the last n gives min(len+1, n) entries, the new one last, preceded by the most recent part of the old sequence |
| `Common.StripChars` | modules/analyst.py:347 | `strip(chars)` leaves no stripped character at either end and never lengthens the text |
| `Common.StripCharsIsInfix` | modules/analyst.py:347 | what `strip` removes is stripped characters only: the result is the infix of the input between two runs of them |
| `Common.StripCharsBetween` | modules/analyst.py:347 | a text whose ends are not stripped characters, padded by stripped characters, strips back to exactly itself |
| `Common.LStripDropsPrefix` | modules/analyst.py:347 | `lstrip` removes exactly a prefix of stripped characters in front of a text that does not start with one |
| `Common.RStripDropsSuffix` | modules/analyst.py:347 | `rstrip` removes exactly a suffix of stripped characters after a text that does not end with one |
| `Common.LStrip` | modules/analyst.py:347 | `lstrip` returns a suffix of its input that does not start with a stripped character, and everything it drops is stripped characters |
| `Common.RStrip` | modules/analyst.py:347 | `rstrip` returns a prefix of its input that does not end with a stripped character, and everything it drops is stripped characters |
| `Common.FindFrom` | modules/watchdog.py:25 | `find` returns the first index at or after `start` where the substring occurs, and -1 exactly when there is none |
| `Common.FindChar` | modules/analyst.py:297 | `find(c)` is -1 exactly when c is absent, else the index of its first occurrence |
| `Common.RFindChar` | modules/analyst.py:298 | `rfind(c)` is -1 exactly when c is absent, else the index of its last occurrence |
| `Common.Lower` | jarvis.py:333 | `lower()` keeps the length and lowers character by character |
| `Config.Lookup` | jarvis.py:340 | `config["bots"].get(name)` finds a section exactly when a bot carries that name, and returns that bot's section |
| `Approvals.PermissionTier` | modules/approvals.py:63-72 | auto exactly when listed under `auto_approve`; forbidden exactly when listed under `never_touch` and in neither earlier list; an unlisted type is "approval" |
| `Approvals.Truncated` | modules/approvals.py:54-57 | the saved history is the last min(len, 200) entries of the history, in order |
| `Approvals.IndexOfId` | modules/approvals.py:120-121 | the loop finds the first queue index carrying the id, or nothing exactly when no queued action has it |
| `Approvals.RemoveAt` | modules/approvals.py:126 | `pop(i)` removes exactly the i-th element and keeps the others in order |
| `Approvals.FilterPending` | modules/approvals.py:148-150 | the pending actions are exactly the queued actions whose status is "pending", all pending, and the whole queue when the queue holds only pending actions |
| `Approvals.FilterPendingAppend` | modules/approvals.py:148-150 | the filter keeps queue order: one more queued action is appended to the result exactly when it is pending |
| `Approvals.ResolvedIdLeavesQueue` | modules/approvals.py:118-146 | after an approve or reject of a queued id (ids unique), the id is gone from the queue and the queue stays all-pending, so a repeat finds nothing |
| `Approvals.DuplicateIdSecondApproveResolvesOther` | modules/approvals.py:120-126 | with two queued actions sharing an id, the second approve resolves the other one: idempotence needs unique ids |
| `Approvals.ApprovalSystem.constructor` | modules/approvals.py:14-27 | the engine starts from the loaded queue and history, and is valid exactly when the loaded queue is all pending |
| `Approvals.ApprovalSystem.SubmitAction` | modules/approvals.py:74-116 | forbidden: "blocked", resolved by system, appended to the truncated history, queue unchanged; auto: "auto_approved", resolved by jarvis, same; otherwise the pending record is appended to the queue and history is unchanged; the all-pending invariant is kept |
| `Approvals.ApprovalSystem.ResolveQueued` | modules/approvals.py:118-146 | the first queued action with the id is stamped by the user, appended to the truncated history and popped; an unknown id changes nothing and returns None |
| `Approvals.ApprovalSystem.ApproveAction` | modules/approvals.py:118-131 | as `ResolveQueued` with status "approved", keeping the all-pending invariant |
| `Approvals.ApprovalSystem.RejectAction` | modules/approvals.py:133-146 | as `ResolveQueued` with status "rejected", keeping the all-pending invariant |
| `Approvals.ApprovalSystem.PendingActions` | modules/approvals.py:148-150 | exactly the queued actions whose status is "pending", and under the invariant the whole queue |
| `Approvals.ApprovalSystem.RecentHistory` | modules/approvals.py:152-154 | for a positive limit the last min(limit, len) history entries, in order |
| `Approvals.ApprovalSystem.DashboardData` | modules/approvals.py:156-162 | `pending` is exactly the queued pending actions, under the invariant the whole queue, and `pending_count` its length; the recent history is the last min(20, n) history entries, in order |
| `Watchdog.CheckScreenSession` | modules/watchdog.py:18-28 | alive exactly when the listing was obtained and the screen name occurs in it; a probe error is not alive |
| `Watchdog.ParsedInstant` | modules/watchdog.py:59-77 | the intended reading: an offset the text carries is honoured, a naive time is UTC, the fallback parse is used when the first fails |
| `Watchdog.ParsedInstantAgrees` | modules/watchdog.py:61-67 | the reading as written agrees with the intended one exactly when the offset is zero or the text shows 'Z', '+' or ends in "00:00" |
| `Watchdog.EasternOffsetReadAsUtc` | modules/watchdog.py:65-67 | a "-05:00" timestamp is read as UTC as written, five hours off the intended instant |
| `Watchdog.CheckDbFreshness` | modules/watchdog.py:42-90 | fresh exactly when the age is known and strictly below the threshold; age and last trade are known exactly when a non-empty stamp parsed; the age is now minus the instant |
| `Watchdog.CheckDashboardAlive` | modules/watchdog.py:172-183 | no port (missing or 0) gives "no_port_configured"; a configured port without a response gives a connection failure; with a response the status code is reported and alive exactly when it is 200 |
| `Watchdog.Classify` | modules/watchdog.py:198-204 | DEAD exactly when not alive; STALE exactly when alive and not fresh; HEALTHY exactly when alive and fresh |
| `Watchdog.EntryFor` | modules/watchdog.py:189-212 | the entry is "disabled" exactly when `enabled` (default true) is false; otherwise it carries the screen probe, the freshness probe and their classification |
| `Watchdog.Pruned` | modules/watchdog.py:111 | pruning keeps exactly the entries younger than the window and never lengthens the history |
| `Watchdog.PrunedAppend` | modules/watchdog.py:111 | pruning keeps history order: an appended entry stays at the end exactly when it is younger than the window |
| `Watchdog.CountRecent` | modules/watchdog.py:112 | the recent count never exceeds the history length |
| `Watchdog.CountRecentAppend` | modules/watchdog.py:112 | appending one entry raises the recent count by one exactly when that entry is recent |
| `Watchdog.CountRecentMonotone` | modules/watchdog.py:112 | an entry recent at a later time was recent earlier, for histories with no future entries |
| `Watchdog.PrunedKeepsPast` | modules/watchdog.py:111 | pruning never brings in an entry later than the history's latest |
| `Watchdog.RestartRefusals` | modules/watchdog.py:95-120 | auto restart off gives "auto_restart_disabled" and stores nothing; a full window gives "max_attempts_exceeded" with the recent count and stores nothing |
| `Watchdog.RestartAttemptCounted` | modules/watchdog.py:122-170 | an attempt stores the pruned history plus one entry at now whose success is the probe outcome (false on an exception), and reports recent+1 attempts, at most max_attempts |
| `Watchdog.RestartKeepsBound` | modules/watchdog.py:103-170 | calls at non-decreasing times never let more than max_attempts entries fall in one cooldown window |
| `Watchdog.AllAtNow` | modules/watchdog.py:111-112 | a history made entirely at now is kept whole and counted whole |
| `Watchdog.StepAtNow` | modules/watchdog.py:111-153 | on a history made at now, a call attempts while fewer than max_attempts entries exist and refuses after |
| `Watchdog.FourCallsAtOneInstant` | modules/watchdog.py:111-153 | with a fixed now and max_attempts 3, four calls give attempts 1, 2, 3 and then "max_attempts_exceeded" with 3 |
| `Watchdog.Watchdog.constructor` | modules/watchdog.py:13-16 | the restart history starts empty |
| `Watchdog.Watchdog.RestartBot` | modules/watchdog.py:92-170 | the result and the stored history are those of the limiter decision; other bots' histories are untouched |
| `Watchdog.Watchdog.FullHealthReport` | modules/watchdog.py:185-214 | the report has one entry per configured bot and each is that bot's `EntryFor` |
| `Executor.HandlerFor` | modules/executor.py:24-37 | a handler is found exactly for the ten registered type names, and the handler found is the one registered under that name, so no name reaches another handler |
| `Executor.HandlerReachable` | modules/executor.py:24-37 | every handler is reached under its own type name |
| `Executor.KillFilePath` | modules/executor.py:73 | the kill-switch path is the bot's directory followed by exactly "/KILL_SWITCH" |
| `Executor.SyncAndCommit` | modules/executor.py:145-155 | after a write, the commit request follows the write and a repository sync; a sync that raises makes the handler raise |
| `Executor.Redeem` | modules/executor.py:54-67 | the redeem handler always returns (errors become a result) after running the redeem script in the bot's directory; a completed run reports its return code and the first min(500, n) characters of stdout; a run error reports its message |
| `Executor.ChangeConvictionRange` | modules/executor.py:245-280 | the step-by-step conviction handler equals `ConvictionRun`: edits min then max when given, writes and commits only when changed |
| `Executor.ExecuteAction` | modules/executor.py:18-48 | an unknown type fails with "no_handler" and no effect; otherwise success exactly when the handler returns, carrying its result, or failure carrying the exception message, with the handler's effects |
| `Executor.MissingValueTouchesNothing` | modules/executor.py:94-165 | the movement-filter, stake-size and entry-timing handlers without "value" succeed with "no_value_provided" and no effect |
| `Executor.RestartIsDelegated` | modules/executor.py:50-52 | a restart action only returns a delegation record and has no effect |
| `Executor.ResumeReportsResumed` | modules/executor.py:82-92 | a resume fails exactly when the kill switch exists and removing it raises; otherwise it reports resumed, with the "kill_switch_not_found" note exactly when there was none, and it has an effect exactly when it removed the file |
| `Executor.ConvictionWritesOnlyWhenChanged` | modules/executor.py:257-280 | `changed` is reported exactly when min or max is given, and the file is written exactly when given and reading and writing succeed |
| `Executor.CommitFollowsWriteAndSync` | modules/executor.py:145-155 | in every execution, each commit request comes right after a file write and a sync |
| `Executor.FailureAfterWrite` | modules/executor.py:139-155 | when the sync raises after the stake size was written, the action is reported failed although the file holds the new value |
| `Analyst.LeadingLosses` | modules/analyst.py:211-216 | the count of leading losses: every counted row is a loss and the next row, if any, is not |
| `Analyst.DetectLossStreak` | modules/analyst.py:195-221 | the loop returns the leading losses among the ten most recent rows, 0 on a database error, and never more than 10 |
| `Analyst.Wins` | modules/analyst.py:162 | the win count never exceeds the trade count |
| `Analyst.WinsAppend` | modules/analyst.py:162 | one more trade adds one to the win count exactly when its `won` is 1, so the count is that of the trades whose `won` is 1 |
| `Analyst.CountPresent` | modules/analyst.py:164-165 | the number of non-NULL values: at most the number of rows, 0 exactly when every value is NULL, and the number of rows exactly when none is |
| `Analyst.PresentAppend` | modules/analyst.py:164-165 | one more row adds one to the count exactly when its value is not NULL, and adds its value to the sum |
| `Analyst.Pnls` | modules/analyst.py:163 | the pnl column: one value per trade of the window, each that trade's pnl |
| `Analyst.Entries` | modules/analyst.py:164 | the entry-price column: one value per trade of the window, each that trade's entry price |
| `Analyst.AbsMovements` | modules/analyst.py:165 | `ABS(movement)`: one value per trade, NULL exactly when the movement is, otherwise the non-negative one of the movement and its negation |
| `Analyst.WinRate` | modules/analyst.py:185 | the win rate is wins / total * 100: in [0, 100], times the total it is 100 * wins, and 100 exactly when every trade won |
| `Analyst.RollingStats` | modules/analyst.py:154-193 | None exactly on a database error or an empty window; otherwise total is the window size, wins counts `won == 1`, losses = total - wins, the win rate is `WinRate`, total pnl is the sum of the present pnls, and the averages are `AVG ... or 0` of the entry prices and absolute movements |
| `Analyst.WinsAndLossesPartition` | modules/analyst.py:184 | wins and non-wins partition the trades: their counts add up to the trade count, and the non-wins are exactly the trades whose `won` is not 1 |
| `Analyst.LossesAreTheNonWins` | modules/analyst.py:180-184 | the reported losses are exactly the window's trades that did not win |
| `Analyst.TextOfAppend` | modules/analyst.py:74-78 | the text of two runs of blocks is the text of the first followed by that of the second |
| `Analyst.NonTextBlockIgnored` | modules/analyst.py:76-78 | a block whose type is not "text" contributes nothing, wherever it stands |
| `Analyst.ConcatText` | modules/analyst.py:74-80 | the accumulation loop yields the text blocks' texts concatenated in order |
| `Analyst.CallHaiku` | modules/analyst.py:28-84 | no API key or a refusing budget gives None and logs nothing; a non-200 reply gives None and logs nothing; a 200 reply is logged once (missing usage as 0) and yields its text |
| `Analyst.InsertAfter` | modules/analyst.py:101-106 | replacing the heading by itself plus a line inserts the line right after the heading |
| `Analyst.UpdateMemory` | modules/analyst.py:94-108 | the entry line goes right after the first "## Past Decisions"; without one, a new section holding it is appended |
| `Analyst.FirstOccurrenceKept` | modules/analyst.py:102-106 | editing after the first heading leaves the first heading where it was |
| `Analyst.UpdateKeepsHeading` | modules/analyst.py:101-108 | after an update the heading exists, at the same index if it existed before |
| `Analyst.OneUpdateUnderHeading` | modules/analyst.py:101-106 | with the heading present one update inserts its line right after the heading, which does not move |
| `Analyst.UpdatesStackNewestFirst` | modules/analyst.py:308-309 | filing a series of memory updates stacks them under the heading, newest first, leaving the rest of the document unchanged |
| `Analyst.BraceSlice` | modules/analyst.py:297-301 | a slice exists exactly when the first '{' precedes the last '}', and it starts with '{' and ends with '}' |
| `Analyst.BraceSliceRecoversObject` | modules/analyst.py:297-302 | an object surrounded by text with no '{' before and no '}' after is cut out exactly |
| `Analyst.ParseAnalysis` | modules/analyst.py:292-316 | no brace slice exactly when the summary-only fallback is taken, and then the summary is the first min(500, n) characters of the cleaned reply; with a slice, the analysis is decoded exactly when the slice decodes, and carries that document; an undecodable slice keeps the raw reply |
| `Analyst.ScheduledAnalysis` | modules/analyst.py:286-312 | no reply or an empty one gives nothing and leaves the memory; otherwise the analysis is `ParseAnalysis` of the reply and the memory is that analysis's updates filed under the timestamp; only a decoded analysis changes the memory |
| `Analyst.FencedReplyTrimmed` | modules/analyst.py:347 | the outer whitespace strip keeps a fenced reply whole |
| `Analyst.FenceMarksRemoved` | modules/analyst.py:347 | the backtick strip removes exactly the fence marks |
| `Analyst.TrailingNewlineRemoved` | modules/analyst.py:347 | the final strip drops the newline after the body |
| `Analyst.TagRemoved` | modules/analyst.py:348-349 | dropping the "json" tag and stripping leaves the body |
| `Analyst.FencedJsonUnwrapped` | modules/analyst.py:347-349 | a body wrapped in a ```json fence is recovered exactly |
| `Analyst.PlainReplyUnchanged` | modules/analyst.py:347-349 | a trimmed reply without a fence or "json" tag is left as it is |
| `Analyst.TriggeredAnalysis` | modules/analyst.py:341-352 | None exactly when there is no reply or it is empty; a reply whose fence-cleaned text decodes gives that diagnosis; a raw diagnosis carries the original reply and occurs only when the cleaned text does not decode |
| `Analyst.AvgOrZero` | modules/analyst.py:164-165 | `AVG(x) or 0`: 0 when no value is present, otherwise the number whose product with the count of present values is their sum |
| `Budget.EstimateCost` | modules/budget_tracker.py:45-49 | the cost is (input tokens * input rate + output tokens * output rate) / 1000, non-negative with non-negative rates |
| `Budget.BucketOr` | modules/budget_tracker.py:94 | a missing bucket reads as all zeros |
| `Budget.BumpAddsOneCall` | modules/budget_tracker.py:66-81 | a bump creates the bucket at zero if absent, adds one call, the tokens and the cost, and leaves every other bucket unchanged |
| `Budget.LoggedCountsOneCall` | modules/budget_tracker.py:51-81 | `log_call` appends exactly one priced record, counts one more call and its cost in its day and month, and leaves other days and months unchanged |
| `Budget.LogAllCounts` | modules/budget_tracker.py:51-81 | logging n calls on a day raises that day's count by n, adds n records, and never lowers a day's or a month's cost |
| `Budget.CallCapHoldsForTheDay` | modules/budget_tracker.py:70-96 | after max_calls_per_day logged calls on a day, calls are refused, and stay refused however many more are logged that day |
| `Budget.RefusalIsStable` | modules/budget_tracker.py:94-105 | a refusal stays a refusal after more calls are logged on the same day and month |
| `Budget.Percent` | modules/budget_tracker.py:126 | the percent is 0 without a positive limit; with one it is the share of the limit times 100 while the cost is within it, exactly 100 once the cost reaches it, and never above 100 |
| `Budget.BudgetTracker.constructor` | modules/budget_tracker.py:20-35 | the tracker starts from the loaded usage, or an empty one |
| `Budget.BudgetTracker.LogCall` | modules/budget_tracker.py:51-83 | the in-place updates leave exactly the usage `Logged` describes |
| `Budget.BudgetTracker.CanMakeCall` | modules/budget_tracker.py:87-107 | refused exactly when the day's calls reached the cap or the day's or month's cost reached its limit, missing buckets counting as zero |
| `Budget.BudgetTracker.DashboardData` | modules/budget_tracker.py:109-140 | the daily and monthly views are the day's and month's buckets (zero when absent) with their limits and `Percent`s, capped at 100 and 0 without a limit; the gate as `can_make_call`; the recent calls are the last min(10, n) call records, in order |
| `Budget.ShareOfLimit` | modules/budget_tracker.py:99-134 | for a positive limit the share reaches 100 percent exactly when the cost reaches the limit, and is not negative for a cost that is not |
| `Futures.ClassifyStrat` | modules/futures_monitor.py:174-186 | "3" exactly when both extremes are broken, "2U" only the high, "2D" only the low, "1" neither, all strictly |
| `Futures.LookupBias` | modules/futures_monitor.py:212-237 | NEUTRAL exactly for a sequence not in the table, with 0; every table entry has a percentage in [73, 100] |
| `Futures.GetStratSequence` | modules/futures_monitor.py:188-210 | nothing exactly with fewer than four candles; otherwise the last three candles each classified against the previous one, and the bias of that sequence |
| `Futures.ThreeUpDaysAreBullish` | modules/futures_monitor.py:194-233 | three two-up days read as "2U-2U-2U", bullish at 77 |
| `Futures.GetKeyLevels` | modules/futures_monitor.py:239-257 | nothing exactly with fewer than two candles; otherwise pdh and pdl are the previous candle's high and low, EQ the midpoint, premium and discount pdl + 0.75 and 0.25 of the range, symmetric around EQ, and pdl <= discount <= EQ <= premium <= pdh when pdh >= pdl |
| `Futures.ConfirmBias` | modules/futures_monitor.py:455-463 | "no bias" exactly when premarket set none; CONFIRMS exactly when the bias favours the signal's direction; "No Strat bias" exactly on NEUTRAL |
| `Futures.BuildSignal` | modules/futures_monitor.py:439-496 | targets at 1, 1.5, 2 and 3 stop distances from the entry, strictly increasing for a long and decreasing for a short when the distance is positive |
| `Futures.SessionBars` | modules/futures_monitor.py:376-381 | the session bars are bars of the input, each in the day's 9:30-11:00 window, and every such bar of the input is among them |
| `Futures.SessionBarsAppend` | modules/futures_monitor.py:376-381 | the mask keeps file order: a later bar is appended to the session bars exactly when it is in the window, so the last two session bars are the latest two |
| `Futures.EqSignal` | modules/futures_monitor.py:386-425 | a signal has entry at the confirming close and EQ as its level, its stop distance in range and its direction's setup; a long stops at the sweep low minus the buffer, a short at the sweep high plus the buffer; a valid long is always taken, and a valid short is taken exactly when there is no valid long |
| `Futures.LiveWindowIsMorningSession` | modules/futures_monitor.py:359-362 | the live window is 9:30 up to, not including, 11:00 |
| `Futures.FuturesMonitor.constructor` | modules/futures_monitor.py:47-53 | no bias, sequence, levels or dates; the signal gate is open |
| `Futures.FuturesMonitor.RunPremarket` | modules/futures_monitor.py:263-308 | at most once per date unless forced; a brief exactly with four candles; it records sequence, bias and levels, re-arms the gate and stamps the date; otherwise nothing changes |
| `Futures.FuturesMonitor.CheckEqRejection` | modules/futures_monitor.py:347-437 | nothing without levels, after today's signal or outside the window; when every gate passes the result is `EqSignal` on the last two session bars with the day's EQ, sequence and bias; a signal closes the gate and changes nothing else, no signal changes nothing |
| `Futures.FuturesMonitor.RunPostsession` | modules/futures_monitor.py:532-553 | a summary exactly once per date and only after a brief, reporting the day's sequence, bias and whether a signal fired; only the postsession date changes, and otherwise nothing changes |
| `Futures.OneSignalPerDay` | modules/futures_monitor.py:263-437 | after a signal a later check the same day fires nothing, and a forced brief leaves the gate open again |
| `Daemon.StaleAlertsPointwise` | jarvis.py:158-164 | after the pass, a configured STALE bot whose last alert (default 0) is at least 300 s old has now as its alert time; every other entry is unchanged |
| `Daemon.NoSecondAlertWithinGap` | jarvis.py:158-164 | a bot alerted at t1 is not alerted again by a pass less than 300 s later |
| `Daemon.RestartRequestsAreDeadBots` | jarvis.py:134-148 | a restart is requested exactly for the configured bots whose entry is DEAD |
| `Daemon.HealthPassStep` | jarvis.py:134-164 | the pass over one more bot is that bot's turn (stale step, restart request submitted by tier, restart when auto-approved) after the pass over the bots before it |
| `Daemon.AlertsAndRestartsStep` | jarvis.py:134-164 | the stale-alert map and the restart histories after one more bot are those its turn leaves |
| `Daemon.QueueAndHistoryStep` | jarvis.py:140-148 | the approval queue and history after one more bot are those its restart request leaves |
| `Daemon.RestartsOnlyDeadBots` | jarvis.py:140-156 | only DEAD bots reach `restart_bot`: other bots' histories are untouched, a DEAD bot's is what one call makes of it |
| `Daemon.UntouchedByOthers` | jarvis.py:140-156 | a name no bot of the pass carries keeps its restart history |
| `Daemon.PauseRequestsAreStreaks` | jarvis.py:169-184 | a pause is requested exactly for enabled bots whose streak reached max_consecutive_losses |
| `Daemon.AutoPauseWritesKillSwitch` | jarvis.py:183-187 | an auto-approved pause writes the bot's kill switch with the reason "<streak>_consecutive_losses" and succeeds |
| `Daemon.PauseStep` | jarvis.py:169-187 | one more bot adds its pause request and its auto-pause effects, exactly when it is enabled with a streak at the maximum, after those of the bots before it |
| `Daemon.TruncatedAppend` | modules/approvals.py:97-98 | saving after every append keeps the same last 200 entries as one save at the end |
| `Daemon.RecordedAllKeepsLatest` | modules/approvals.py:93-116 | a pass's submissions leave the history as it was when they wait for approval, and otherwise the last 200 entries of the old history followed by the blocked or auto-approved records, in order |
| `Daemon.RecordedAllStep` | modules/approvals.py:93-116 | one more submission is recorded after those before it |
| `Daemon.Verdicts` | modules/approvals.py:93-105 | the resolved records of a pass are one per request, in order, each blocked by the system or auto-approved by jarvis as its tier says |
| `Daemon.LossPassStep` | jarvis.py:169-187 | the loss-streak pass over one more bot is that bot's turn (pause request by tier, pause executed when auto-approved) after the pass over the bots before it |
| `Daemon.LossPassQueueAndHistoryStep` | jarvis.py:175-184 | the approval queue and history after one more bot are those its pause request leaves |
| `Daemon.LossPassEffectsStep` | jarvis.py:186-187 | the executor's effects after one more bot are those of the bots before it followed by its auto-approved pause |
| `Daemon.DrainStep` | jarvis.py:263-267 | one more history entry is executed exactly when it is approved and its id was not executed before |
| `Daemon.DrainIsIdempotent` | jarvis.py:263-267 | once every approved id is recorded, draining again executes nothing |
| `Daemon.ApprovedAmongSelects` | jarvis.py:264-265 | the loop selects exactly the approved actions it is given |
| `Daemon.NothingApprovedAmongPending` | jarvis.py:264-265 | among pending actions nothing is selected |
| `Daemon.ApprovedEffects` | jarvis.py:264-266 | a loop that selects nothing does nothing |
| `Daemon.ApprovedAmongStep` | jarvis.py:264-265 | one more action extends the selection exactly when it is approved |
| `Daemon.ApprovedEffectsStep` | jarvis.py:264-266 | one more action adds its execution exactly when it is approved |
| `Daemon.ApprovedActionNeverSelected` | jarvis.py:264-265 | with an approved action in the history, the selection from the pending actions is still empty |
| `Daemon.LowerAppend` | jarvis.py:333 | lowering distributes over concatenation |
| `Daemon.LowersToLetter` | jarvis.py:333 | a character lowering to 'p' or 'r' is not whitespace |
| `Daemon.StripPadded` | jarvis.py:333 | whitespace padding around a keyword and name is stripped exactly |
| `Daemon.CommandTextNormalized` | jarvis.py:333 | a padded keyword typed in any case with a canonical name normalizes to the lower-case keyword and the name |
| `Daemon.ArgumentAfterKeyword` | jarvis.py:339 | the stripped text after the first space of "pause <bot>" or "resume <bot>" is the bot |
| `Daemon.DispatchPause` | jarvis.py:338-339 | the normalized "pause <bot>" dispatches to a pause of that bot |
| `Daemon.DispatchResume` | jarvis.py:345-346 | the normalized "resume <bot>" dispatches to a resume of that bot |
| `Daemon.PauseCommandRoundTrip` | jarvis.py:333-339 | "pause <bot>" in any case and padding parses back to a pause of that bot |
| `Daemon.ResumeCommandRoundTrip` | jarvis.py:333-346 | "resume <bot>" in any case and padding parses back to a resume of that bot |
| `Daemon.NextTimersMoveWhenDue` | jarvis.py:419-436 | each timer keeps its value or becomes now; it moves only when its check was due and completed; after a cycle without exception no check is overdue |
| `Daemon.QuietTicks` | jarvis.py:417-447 | the number of ticks before the first one carrying a KeyboardInterrupt: none of those carries one, and the tick after them does when there is one |
| `Daemon.AtMostOncePerInterval` | jarvis.py:419-436 | a check that ran at t1 does not run again in a cycle less than one interval later |
| `Daemon.Jarvis.constructor` | jarvis.py:90-99 | running, every timer 0, empty health, chat log, alert map, and no executed ids |
| `Daemon.Jarvis.LogChat` | jarvis.py:120-129 | the chat log is the last 200 entries of the old log plus the new entry |
| `Daemon.Jarvis.RequestRestart` | jarvis.py:140-156 | the restart request is queued when it needs approval and otherwise recorded in the history as blocked or auto-approved; `restart_bot` runs only when it is auto-approved |
| `Daemon.Jarvis.StaleCheck` | jarvis.py:158-164 | the alert time becomes now exactly when the last alert (default 0) is at least 300 s old |
| `Daemon.Jarvis.CheckBot` | jarvis.py:134-164 | one bot's turn: alerts, queue, history and restart histories become `BotTurn` of the old ones (stale step; for a DEAD bot its request queued, blocked or auto-approved with the restart run) |
| `Daemon.Jarvis.CheckEachBot` | jarvis.py:134-164 | the loop over the configured bots leaves alerts, queue, history and restart histories as `HealthPass` over all of them, the report unchanged |
| `Daemon.Jarvis.CheckHealth` | jarvis.py:131-164 | the report holds exactly the configured bots, each with the watchdog's entry; alerts, queue, history and restart histories are `HealthPass` over the configured bots |
| `Daemon.Jarvis.CheckBotLosses` | jarvis.py:169-187 | one bot's turn: queue, history and effects become `LossTurn` of the old ones, a pause only for an enabled bot whose streak reached the maximum |
| `Daemon.Jarvis.PauseOnStreak` | jarvis.py:175-189 | the pause request is queued when it needs approval, otherwise recorded as blocked or auto-approved, and executed at once exactly when auto-approved |
| `Daemon.Jarvis.CheckLossStreaks` | jarvis.py:166-187 | queue, history and the executor's effects are `LossPass` over the configured bots: requests for the enabled bots whose streak reached the maximum, by tier |
| `Daemon.Jarvis.ExecuteAndLog` | jarvis.py:266-267 | the action is executed in its bot's environment and the execution is logged |
| `Daemon.Jarvis.ExecuteApprovedAmong` | jarvis.py:264-267 | the loop's effects are those of the approved actions among those given, in order; with none selected nothing is logged |
| `Daemon.Jarvis.ProcessApprovedActionsAsWritten` | jarvis.py:263-267 | as written, the drain executes nothing and logs nothing |
| `Daemon.Jarvis.ProcessApprovedActions` | jarvis.py:263-267 | the intended drain executes each approved history action not executed before, once, in order, and records its id |
| `Daemon.ApprovedActionScenario` | jarvis.py:263-267 | with one approved action alone in the history, the drain as written executes nothing, the intended drain executes exactly that action and records its id, and a second drain executes nothing |
| `Daemon.Jarvis.UserHealthCheck` | jarvis.py:335-337 | the `status` branch runs the full health pass (`HealthChecked`) and then logs its confirmation as the last chat entry |
| `Daemon.Jarvis.UserPause` | jarvis.py:338-344 | the pause handler runs directly, without approval, exactly for a configured bot; an unknown bot has no effect; unless the handler raises, the last chat entry confirms the pause (success) or reports the unknown bot (error), and a raise leaves the chat log unchanged |
| `Daemon.Jarvis.UserResume` | jarvis.py:345-351 | the resume handler runs directly, without approval, exactly for a configured bot; an unknown bot has no effect; unless the handler raises, the last chat entry confirms the resume (success) or reports the unknown bot (error), and a raise leaves the chat log unchanged |
| `Daemon.Jarvis.RunCommand` | jarvis.py:335-394 | `status` runs the full health pass (`HealthChecked`); every other command leaves the report, alerts, queue, history and restart histories unchanged; pause and resume run their handlers directly on a configured bot and do nothing for an unknown one; other commands have no effect |
| `Daemon.Jarvis.HandleUserCommand` | jarvis.py:331-394 | the text is parsed and dispatched: a health pass exactly for `status`, otherwise the health state unchanged, and the outcome `CommandOutcome` of the parsed command |
| `Daemon.Jarvis.Recover` | jarvis.py:445-452 | KeyboardInterrupt clears `running`; any other exception leaves it |
| `Daemon.Jarvis.HealthStep` | jarvis.py:421-423 | when due and not interrupted the check runs (`HealthPass`, report refreshed) and the timer is stamped; otherwise nothing it reads changes |
| `Daemon.Jarvis.SettlementStep` | jarvis.py:425-428 | when due and not interrupted the loss-streak pass runs (`LossPass`) and the timer is stamped; otherwise queue, history and effects are as before |
| `Daemon.Jarvis.PeriodicChecks` | jarvis.py:419-436 | the timers become `NextTimers`; the health pass and then the loss-streak pass ran exactly when each was due and reached |
| `Daemon.Jarvis.RunCycle` | jarvis.py:417-452 | the timers become `NextTimers`, the checks leave what `ChecksDone` states, the drain (when reached) executes `DrainEffects` and records the approved ids, and `running` is cleared exactly by an interrupt |
| `Daemon.Jarvis.Run` | jarvis.py:396-454 | a running daemon runs `QuietTicks` cycles and one more when a tick carries a KeyboardInterrupt, then stops; it keeps running exactly when no tick carries one; a stopped daemon runs none |

## Left out

- Subprocesses, SQLite, HTTP, the file system, git and the clocks are not
  modelled. What they return is a parameter: `Probes`, `DbRead`, `Env`,
  `World`, `HttpReply`, candle and bar sequences.
- `time.sleep` in the restart sequence and in the main loop is not modelled.
- `Daemon.Jarvis.Run`: the `SystemExit` raised by the SIGINT and SIGTERM
  handlers (jarvis.py:456-461), and a KeyboardInterrupt during the error
  path's `time.sleep(10)` (jarvis.py:452), leave `run` without passing
  through its handler. They are not ticks of the model.
- `Daemon.Jarvis.RunCycle`: the drain it runs is the corrected
  `ProcessApprovedActions` (see Findings). jarvis.py:442 calls the drain as
  written, `ProcessApprovedActionsAsWritten`, which executes nothing.
- `Daemon.Jarvis.StaleCheck`: every STALE bot of one pass is compared with,
  and stamped with, the cycle's single clock reading `w.now`. jarvis.py:160
  reads the clock afresh for each STALE bot, so bots later in the loop see
  a slightly later time. `Daemon.HealthPass`, `Daemon.Jarvis.CheckBot` and
  `Daemon.Jarvis.CheckEachBot` share this.
- `Watchdog.CheckDbFreshness`: reads the stored stamp with the corrected
  `ParsedInstant` (see Findings), so a stamp with a negative UTC offset is
  aged from its true instant, not from the re-tagged one of
  modules/watchdog.py:65-67. The same holds for `Watchdog.EntryFor`,
  `Watchdog.Watchdog.FullHealthReport` and `Daemon.Jarvis.CheckHealth`,
  which use it.
- The dashboard thread and Flask app, and `get_dashboard_state`, are not
  modelled. Concurrency is out of scope.
- `check_settlements` and `calculate_stats` (with `bot_stats`) are not
  modelled. They are database reads that only log or cache. Their timers are
  modelled.
- `run_scheduled_analysis` in jarvis.py is not modelled: the summary
  cleanup, submitting recommendations and risk alerts. The analyst's own
  reply parsing and memory filing are modelled.
- The triggered analysis after an auto-pause is not modelled.
- `_run_futures_checks` in the main loop is not modelled. The monitor's own
  gates are modelled.
- The `analyze`, `budget`, `futures`, `futures stats`, `weekly` and question
  branches of `handle_user_command` are parsed but only log in this model.
- Chat messages are a datatype. Their emoji and number formatting are left
  out. The entry time is the clock reading, not the formatted string.
- `Daemon.Jarvis.RunCycle`: an exception is a `Fault` raised at the start of
  a stage. Partial work inside a raising stage is not modelled.
- JSON persistence of queue, history and usage is not modelled. Saving is
  the identity, apart from the 200-entry history truncation, because save
  errors are only logged.
- `Approvals.ApprovalSystem.SubmitAction`: the action id is the millisecond
  clock reading. The "action_" string prefix is dropped because it is an
  injective rendering.
- `Budget.EstimateCost`: rounding to 6 places is not modelled. Costs are
  exact reals.
- `Budget.Percent`: rounding to 1 place and the dashboard's 4-place cost
  rounding are not modelled.
- Regex and literal patching of bot files is modelled as an edit record
  with present/absent patterns. Regex internals and the kill-note text are
  out of scope.
- `Common.Lower`: lowers ASCII letters only. Python's full Unicode case
  mapping is not modelled.
- `Analyst.UpdatesStackNewestFirst`: all updates of one analysis share one
  timestamp. The source reads the clock per update.
- Prompt text, model names and the `requests`/`json.loads` internals are
  left out. Decoding is a partial function parameter.
- integrate_futures.py, patch_dashboard.py and modules/git_manager.py are
  not part of this model.

Notes where the model follows the code over the documentation:

- A handler whose git sync raises after the file was written is reported as
  a failure (`Executor.FailureAfterWrite`).
- The loop reads a missing `enabled` key as disabled. The watchdog reads it
  as enabled. Both readings are kept.

## Findings

| source | as written | input that shows it | evidently intended | confidence | as-written member | corrected member |
|---|---|---|---|---|---|---|
| jarvis.py:263-267 | `process_approved_actions` iterates `get_pending_actions()`, which returns only "pending" items, and executes those whose status is "approved" | the operator approves a queued pause; it moves to the history as "approved" and no cycle ever executes it | approved actions in the history are executed once each | high (not executed) | `Daemon.Jarvis.ProcessApprovedActionsAsWritten`, `Daemon.ApprovedActionScenario` | `Daemon.Jarvis.ProcessApprovedActions` |
| modules/watchdog.py:67 | a timestamp with no 'Z' or '+' that does not end in "00:00" is re-tagged as UTC even when it carries a negative offset | "2025-01-06T10:00:00-05:00" is read as 10:00 UTC instead of 15:00 UTC, five hours stale | a carried offset is honoured; only naive timestamps are taken as UTC | high (not executed) | `Watchdog.EasternOffsetReadAsUtc` | `Watchdog.ParsedInstant` |
