# A verified model of the trading advisor's control plane

The repository is an arbitrage bot with an AI advisor. The advisor proposes changes to a small allowlist
of trading and risk parameters, a human approves them, and the program must end up running on exactly the
approved values, whatever fails or crashes in between. This project models that control plane in Dafny and
proves what it guarantees over every interleaving, every crash and every reply of a language model, and,
where a promise does not hold in general, exactly when it does.

`dafny verify dfyconfig.toml` checks everything.

## The approval protocol

`ApprovalModel` holds the data: the allowlist, recommendation rows, application records, the desired
configuration, and the live settings with the RiskEngine limits. `ApprovalProtocol` makes a step machine of
it: a step is the code between two `await`s of one call, one committed transaction, one stage of startup,
or a crash. What the code does not decide (who moves, which write or synchronisation fails, what the
environment holds, in which order records come back) is part of the action, so a theorem over all action
sequences is a theorem over all interleavings. Text handling is a parameter `tx`; the protocol is proved
for every choice with the properties `TextOk`, and `PyText` proves them for Python's `strip`, `int` and
`Decimal`, exponents and signs included.

* `ApprovalSafety` and `ApprovalRuns`: the durable invariant, one winner per recommendation, losers leave no
  trace, settings and RiskEngine never part.
* `ApprovalRequests`: every status goes back to an operator's request of its own kind.
* `ApprovalOutcome`: `applied` is never false and never taken back.
* `ApprovalRecovery` and `ApprovalConvergence`: the exact result of startup, exactly when it succeeds, when it
  reaches the desired configuration, and what blocks it for good.
* `ApprovalStaleness`: exactly when a committed claim is stale.
* `ApprovalLive`: exactly when the running program keeps holding the desired values.
* `ApprovalWitness`: runs that show why the conditions are there. Compensation can undo another applied
  approval, an older unfinished record can override a newer approval at startup, a stale approval can commit,
  and approving a text that does not print back to itself (such as a whole number with leading zeros)
  makes every later startup fail. The last contradicts the promise of the `approve` documentation that a
  crash at any point leaves a state startup converges from; the model follows the code.
* `ApprovalService`: the service as an object with mutable fields; an uninterrupted `approve` is eight steps of
  the machine, an uninterrupted startup is `Reconcile`.

## The other components

* `Controller`, `KillSwitch`, `LoopTrading`, `ControllerObject`: the auto-trading controller, its loop, the
  kill switch, and what a trading loop executes.
* `ToolLoop`: the tool-calling loop, for every behaviour of the model and of the tools.
* `Pipeline`: the advisor pipeline, its gates and what the model's text can reach.
* `Notifications`: the hourly window, debouncing, and deduplication across restarts.
* `Recommender`: the three rules, their direction, and that their proposals are approvable.
* `Chunking`: overlapping windows over document sections.
* `Lessons`: lesson versions, their history under crashes, and contradicting measurements.

## Model

| member | source | states |
|---|---|---|
| PyText.IntRoundTrip | app/agent/approval.py:307-314 | Every integer is read back from its own text, for Python's sign, underscore and leading-zero rules. |
| PyText.DecRoundTrip | app/agent/approval.py:299-306 | Reading what `str` wrote for a decimal gives the same sign, coefficient and exponent, in plain and in scientific notation. |
| PyText.ScientificIff | app/agent/approval.py:549-574 | The text `str` gives a decimal, which the convergence check compares, is scientific exactly when its exponent is positive or its adjusted exponent is below -6. |
| ApprovalModel.PythonTextOk | app/agent/approval.py:108-121 | Python's strip, parse, print and the allowlist lookup have the properties the protocol proofs rely on. |
| ApprovalModel.ShownIsCanonical | app/agent/approval.py:299-328 | A text printed from any in-bounds value of the parameter's type is accepted as that value and prints back to itself. |
| ApprovalModel.RiskByName | app/agent/approval.py:123 | The parameters whose limits the RiskEngine shares are exactly those named `risk.*`. |
| ApprovalModel.WholeNumbersAccepted | app/agent/approval.py:108-121 | Which whole numbers, written plainly, each of the nine parameters accepts. |
| ApprovalModel.WholeNumberParams | app/agent/approval.py:299-315 | The three whole-number parameters refuse every text with a point; every other parameter takes every decimal within its bounds. |
| ApprovalProtocol.ValidateGives | app/agent/approval.py:828-852 | Passing the checks of approve means an actionable row with an allowlisted, stripped, nonempty, in-bounds proposal. |
| ApprovalSafety.StepKeeps | app/agent/approval.py:799-956 | Every step of any call, of startup, or a crash keeps the durable invariant and what each in-flight call knows about its row and record. |
| ApprovalRuns.DurableClaims | app/agent/approval.py:465-489 | In every reachable state a row is APPROVED exactly when it has a record, the record carries its allowlisted in-bounds parameter and value, and each desired value is that of its parameter's latest committed claim. |
| ApprovalRuns.RowsForwardRun | app/agent/approval.py:656-713 | Over every run statuses move only forward, a decided row never changes again, and the version never falls and grows by at most one per transition, strictly from PENDING. |
| ApprovalRuns.OneWinner | app/agent/approval.py:877-890 | Whatever approve, reject and review calls race on an id, at most one terminal transition commits, and it stands. |
| ApprovalRuns.LosersLeaveNoTrace | app/agent/approval.py:828-908 | Erasing every step of a call that never commits gives the same rows, desired values, records, settings and RiskEngine. |
| ApprovalRuns.AlwaysLockstep | app/agent/approval.py:412-441 | At every await point of every run settings and RiskEngine agree on every parameter named `risk.*`, also after compensations that restore older pairs. |
| ApprovalRuns.SnapshotsFrom | app/agent/approval.py:864-866 | A call's snapshot is the runtime at the moment it was taken and is only handed on. |
| ApprovalOutcome.NoFalseSuccess | app/agent/approval.py:910-956 | Every record that reads applied was preceded by a state in which the runtime verifiably held exactly its value while it was unfinished. |
| ApprovalOutcome.AppliedForever | app/agent/approval.py:491-527 | Once applied a record never changes again, over live calls, crashes and recoveries. |
| ApprovalRecovery.StartupIsReconcile | app/agent/approval.py:222-296 | The startup steps taken without interruption are the function Reconcile, faults included. |
| ApprovalRecovery.ExactRecovery | app/agent/approval.py:251-293 | After a startup that returns normally, in any record order and whatever faults it met, no record is unfinished and each parameter holds, in settings and RiskEngine, its last-processed unfinished record's value, else its desired value, else the environment's. |
| ApprovalRecovery.SyncExact | app/agent/approval.py:549-574 | Without a fault, applying and verifying a text succeeds exactly when the text prints back to itself. |
| ApprovalRecovery.StartupAccepts | app/agent/approval.py:251-293 | Startup returns normally if and only if every desired value and every unfinished record is well formed and prints back to itself, whatever the environment and record order. |
| ApprovalRecovery.ReachableStartup | app/agent/approval.py:222-296 | In every reachable state the only thing that makes startup refuse is a desired value or unfinished record text that does not print back to itself, in both directions. |
| ApprovalRecovery.TwoStartups | app/agent/approval.py:251-293 | A second startup after a successful one succeeds when nothing is failing, and any second startup that returns normally ends, in settings and RiskEngine, at the desired configuration, with no side condition on the records. |
| ApprovalConvergence.StartupConverges | app/agent/approval.py:251-293 | Over every run, if no claim commits while an earlier record of its parameter is unfinished, a startup about to return normally has settings and RiskEngine at the desired value of every parameter. |
| ApprovalConvergence.EveryOrderConverges | app/agent/approval.py:264-293 | For an acceptable durable state: every record order brings settings and RiskEngine to the desired configuration if and only if every unfinished record carries its parameter's desired value. |
| ApprovalConvergence.BlockedForGood | app/services.py:584-599 | With one desired value or unfinished record that does not print back to itself, no sequence of restarts in any environment ever starts the program again. |
| ApprovalLive.KeptIff | app/agent/approval.py:864-956 | Over every run with serial claims, however calls overlap, fail, are cancelled or crash: at every point every parameter without an unfinished record and every value just verified is live in settings and RiskEngine, if and only if no compensation restores another value of such a parameter. |
| ApprovalLive.LiveConvergence | app/agent/approval.py:864-956 | With serial claims, and no call compensating after another one changed the runtime since its snapshot, every parameter without an unfinished record holds its desired value in settings and RiskEngine whenever the program is up; approvals may overlap. |
| ApprovalLive.ExclusiveIsEnough | app/agent/approval.py:864-942 | Taking approvals one at a time from snapshot to return meets that condition. |
| ApprovalWitness.CompensationUndoesApplied | app/agent/approval.py:576-598 | From any idle state with two approvable recommendations for different parameters there is a run after which one record is applied and desired and the runtime does not hold its value. |
| ApprovalStaleness.StaleIff | app/agent/approval.py:846-888 | For every run and every claim about to commit: the checks of phase 1 would still pass if and only if the row stores no current text, or the live text of its parameter is what it was when the call passed its check. |
| ApprovalStaleness.UndisturbedClaimIsFresh | app/agent/approval.py:846-888 | If no other call changed the runtime between a call's check and its claim, the claim is not stale. |
| ApprovalWitness.StaleClaimCommits | app/agent/approval.py:846-888 | There is a run in which a claim commits although the staleness check would refuse it at that moment. |
| ApprovalWitness.OlderRecordWins | app/agent/approval.py:281-287 | There is a run after which every startup returns normally with the older, failed approval's value live and the newer one's desired. |
| ApprovalWitness.NonCanonicalApprovalBlocks | app/agent/approval.py:839-852 | Approving any proposal that is accepted but does not print back to itself, followed by a crash, leaves a state no restart recovers from. |
| ApprovalWitness.CanonicalProposalsStart | app/agent/approval.py:222-296 | If every recommendation's proposal is refused or prints back to itself, startup succeeds in every reachable state, environment and record order. |
| ApprovalWitness.LeadingZerosNotCanonical | app/agent/approval.py:299-328 | For every decimal parameter any in-bounds whole number with leading zeros is accepted and does not print back to itself. |
| ApprovalWitness.FreshStart | app/agent/approval.py:222-296 | The idle running states these runs start from are reachable. |
| ApprovalService.Service.ApplyValue | app/agent/approval.py:398-463 | Both replacements are installed or neither is; a RiskEngine that cannot be installed puts the settings back. |
| ApprovalService.Service.VerifyConverged | app/agent/approval.py:549-574 | Succeeds exactly when settings, and the RiskEngine for a risk parameter, print the durable text. |
| ApprovalService.Service.MarkApplyStatus | app/agent/approval.py:491-527 | Rewrites the one record, or reports that it could not and changes nothing. |
| ApprovalService.Service.ClaimRow | app/agent/approval.py:875-902 | Row, desired value and application record change together, as the claim transaction of the protocol. |
| ApprovalService.Service.Approve | app/agent/approval.py:799-956 | An uninterrupted approve has the effect of the steps of one call; it returns normally only with the claim committed and the runtime converged, and on failure the runtime is what it was. |
| ApprovalService.Service.Review | app/agent/approval.py:656-713 | An uninterrupted review has the effect of the two steps of one: a PENDING row becomes REVIEWED at the next version, or nothing changes. |
| ApprovalService.Service.Reject | app/agent/approval.py:1013-1034 | An uninterrupted rejection has the effect of the two steps of one: a PENDING or REVIEWED row becomes REJECTED at the next version, or nothing changes. |
| ApprovalRequests.EveryStatusRequested | app/agent/approval.py:656-713 | Over every run a row's status is the one it was created with or goes back to a request of its own kind by a nonblank operator and that call's commit; APPROVED also to safety gates that passed after the request. |
| ApprovalRequests.DesiredWithinBounds | app/agent/approval.py:317-328 | Over every run of the program every desired value is a number of its parameter's type within the allowlist's bounds. |
| ApprovalRequests.LoneReview | app/agent/approval.py:656-713 | The exact effect of an uninterrupted review, refusals included. |
| ApprovalRequests.LoneReject | app/agent/approval.py:1013-1034 | The exact effect of an uninterrupted rejection, refusals included. |
| ApprovalService.Service.ApplyDesired | app/agent/approval.py:244-262 | The first startup loop computes the protocol's first pass and fails exactly where that does. |
| ApprovalService.Service.FinishRecords | app/agent/approval.py:263-293 | The record loop computes the protocol's recovery, and also on failure leaves exactly its records. |
| ApprovalService.Service.ReconcileApproved | app/agent/approval.py:222-296 | Startup on a freshly built process is Reconcile. |
| Controller.OneLoopIff | app/auto_controller.py:97-188 | Over every interleaving of calls, loop exits, aborts and crashes: at every point at most one loop lives and the controller refers to it, if and only if no stop clears a reference to a live task. |
| Controller.OneLoop | app/auto_controller.py:97-188 | If no stop overlaps a start, at most one loop lives at every point of every run and the reference is that loop. |
| Controller.OverlapOrphans | app/auto_controller.py:149-188 | A stop that overlaps a start leads to two live loops. |
| KillSwitch.NothingBegins | app/services.py:202-231 | Once the kill switch is engaged and until it is released, no triangle execution and no cycle begins, at any interleaving, operator commands included. |
| KillSwitch.HaltedLoopEnds | app/auto.py:37-63 | Whatever a loop is doing when the switch is engaged, it ends within seven of its own steps without beginning another cycle. |
| KillSwitch.SurvivesRestarts | app/execution/guard.py:109-129 | Once the engagement is written and no earlier release is still writing, every restart comes up halted and no execution begins until a release. |
| KillSwitch.SurvivesIff | app/execution/guard.py:109-129 | The kill switch of a running process survives every sequence of crashes and restarts without a release if and only if its engagement is written and no delete by an earlier release is pending. |
| KillSwitch.LateReleaseLosesHalt | app/services.py:426-435 | An engagement written while an earlier release is still writing is lost at the next restart. |
| KillSwitch.LoneEngage | app/services.py:426-430 | An uninterrupted engagement halts the guard, writes that down and switches auto trading off in both places. |
| KillSwitch.LoneRelease | app/services.py:432-435 | An uninterrupted release undoes the halt in guard and database and nothing else. |
| LoopTrading.ExecutionsBounded | app/auto.py:65-90 | Over every run a loop begins at most as many executions as its completed scans found, each cut to the limit per cycle. |
| LoopTrading.WholeRound | app/auto.py:37-90 | An undisturbed round of a loop nothing holds back begins one cycle, executes each opportunity found up to the limit exactly once, and returns to its start, changing nothing else. |
| LoopTrading.CycleEnds | app/auto.py:65-90 | A cycle with n opportunities is over after at most 2n + 1 steps of its loop, halted or not, whatever else happens. |
| LoopTrading.FailureEndsCycle | app/auto.py:51-55 | After an execution that fails the loop begins no other before its next completed scan. |
| LoopTrading.AllAccounted | app/services.py:202-231 | The executions and cycles begun in a run are exactly those of its loops' steps and of approved operator commands given while not halted. |
| LoopTrading.ExecutionsAreApproved | app/services.py:202-226 | An execution begins exactly for an opportunity left in the cycle that the risk check approves while not halted; a refused one is passed over. |
| LoopTrading.StopIsHeeded | app/auto.py:47-50 | A loop with its stop signal set begins no further cycle, but for the one it was about to begin. |
| LoopTrading.FlagIsHeeded | app/auto.py:47-50 | While the flag is off a loop begins no cycle, but for the one whose flag it had already read as on. |
| LoopTrading.CyclesAreGuarded | app/auto.py:47-53 | A cycle begins only with the guard open, not halted, and a flag that was read as on. |
| LoopTrading.RestoreFollowsFlag | app/services.py:640-642 | At start-up the guard is opened only if the persisted flag says so. |
| ControllerObject.AutoTradingController.StartTrading | app/auto_controller.py:97-147 | Starting is refused exactly while halted or running and then changes nothing; otherwise exactly one fresh loop exists and flag, guard and reference say so. |
| ControllerObject.AutoTradingController.StopTrading | app/auto_controller.py:149-188 | Stopping leaves no loop, no reference and no flag, does not touch the kill switch, reports whether anything was on, and has the effect of the steps of one stop whose awaited task ends. |
| ControllerObject.AutoTradingController.CheckRunning | app/auto_controller.py:68-94 | A finished loop is noticed: its reference and flag are dropped; otherwise nothing changes. |
| ToolLoop.ValidateExact | app/agent/nl_tool_executor.py:148-205 | The validator accepts exactly the calls to the ten tools whose arguments conform to the declared schemas, up to three named liberties, and hands on conforming arguments. |
| ToolLoop.ValidateKeeps | app/agent/nl_tool_executor.py:155-205 | What is handed on is the limit asked for or the tool's standard one, the first 500 characters of the query, and nothing else. |
| ToolLoop.Executor.Execute | app/agent/nl_tool_executor.py:219-241 | Calls a tool exactly when it is allowlisted and within budget, and counts exactly the calls that succeed. |
| ToolLoop.AnswerCalls | app/agent/telegram.py:1020-1066 | One round answers its calls in order, each with its result, until all are answered, one takes the single correction allowed, or one is fatal. |
| ToolLoop.ProperBounds | app/agent/telegram.py:1009-1077 | Every proper transcript has at most five results and one correction, one round per result or correction, and no dispatch without one. |
| ToolLoop.ProperAnswered | app/agent/telegram.py:1020-1066 | In every proper transcript each tool message answers, in order, a call of the latest assistant message. |
| ToolLoop.AskedOnlyWhileOpen | app/agent/telegram.py:1009-1018 | Tools are offered only with budget left and never after a correction that followed a result; an assistant message is the model's reply, cut to the budget. |
| ToolLoop.ToolsFlow | app/agent/telegram.py:1001-1085 | For every behaviour of model and tools the flow ends with a proper transcript: it answers exactly with the model's last reply, falls back exactly when that is missing or shorter than five characters, and raises only on a failed request, a broken tool or a second correction; at most five tools complete, six start and seven requests are made; only allowlisted tools with conforming arguments run, balances only on request. |
| Pipeline.BoundList | app/agent/analysis.py:96-102 | At most so many items, each cleaned and cut to its limit, in order. |
| Pipeline.Build | app/agent/analysis.py:178-358 | Facts, observations, evidence, confidence and action are functions of context and reflection; the model's text enters only the bounded hypotheses. |
| Pipeline.TradesInsightIff | app/agent/reflection.py:177-285 | Trades give an insight if and only if there are enough of them and at least two fifths failed or none completed; its numbers, ids and wording, and those of no insight. |
| Pipeline.ExperiencesInsightIff | app/agent/reflection.py:67-175 | Experiences give an insight if and only if there are enough of them with average confidence at least 0.6; its numbers and ids. |
| Pipeline.ConfidentExperiences | app/agent/reflection.py:96-108 | Enough experiences that are each confident speak; experiences none of which is do not. |
| Pipeline.TotalSign | app/agent/reflection.py:203-209 | Profits that are never negative do not add up to a loss; losses do. |
| Pipeline.ReflectionIff | app/agent/core.py:136-170 | The pipeline settles on the trades' insight if there is one, else on the experiences', else on what the trades gave. |
| Pipeline.CompletedTradesAreQuiet | app/agent/reflection.py:212-285 | Completed trades alone never give an insight. |
| Pipeline.FailuresOnlyAdd | app/agent/reflection.py:212-285 | A completed trade that turns out failed never loses an insight. |
| Pipeline.SurfacedIff | app/agent/core.py:172-233 | A recommendation is surfaced if and only if trades or experiences give an insight on at least five items with a pattern, and it carries that pattern, confidence and evidence. |
| Pipeline.InsightIsGrounded | app/agent/reflection.py:67-285 | An insight rests on at least the configured minimum of items, at least one, with confidence at least 0.6, and its observation carries the same numbers. |
| Pipeline.Handle | app/agent/core.py:122-233 | For every reply or failure of the model, reflection, recommendation, decision, facts, observations, evidence, confidence and action are given by functions the reply is no argument of. |
| Pipeline.SurfacedIsGrounded | app/agent/reflection.py:295-302 | A surfaced recommendation has confidence at least 0.6 and at least five items of evidence, or the configured minimum when the analysis broke down. |
| Pipeline.BrokenAnalysisIsHarmless | app/agent/core.py:225-231 | With the default minimum of five, a failing analysis changes neither the recommendation nor the decision. |
| Pipeline.BrokenAnalysisIff | app/agent/core.py:225-231 | A failing analysis changes no recommendation and no decision, for any context, if and only if reflection asks for at least five items. |
| Pipeline.FewerItemsNeedTheGate | app/agent/core.py:225-231 | For every minimum below five, as many failed trades surface a recommendation through a failing analysis that the gates would hold back. |
| Notifications.NotificationService.RateOk | app/agent/notifications.py:716-724 | The queue is pruned of heads older than an hour and compared with the limit. |
| Notifications.NotificationService.Notify | app/agent/notifications.py:201-287 | Filter, deduplicate, debounce, limit, send and mark, as the specification function After. |
| Notifications.SlidingWindow | app/agent/notifications.py:716-724 | Over every run of one process with a monotonic clock, any limit+1 consecutive sent events span more than 3600 seconds. |
| Notifications.RateLimitExact | app/agent/notifications.py:716-724 | The limit refuses an event exactly when that many events were sent within the last hour. |
| Notifications.SendsIff | app/agent/notifications.py:201-282 | An attempt sends if and only if its type is known and allowed, its key unmarked, no event of its group went out within the window, fewer than the limit within the hour, and somebody receives it. |
| Notifications.OnlySendsMark | app/agent/notifications.py:274-282 | Sending marks both keys, the group and the time; anything else leaves keys and marks alone. |
| Notifications.CanBeSentLater | app/agent/notifications.py:274-282 | An event that nobody received, or that the settings forbade, and that would otherwise have gone out can still be sent later. |
| Notifications.DebounceHolds | app/agent/notifications.py:704-714 | Within one process two sends of one debounce group are of one event type and at least its window apart. |
| Notifications.DebounceExact | app/agent/notifications.py:704-714 | An event is held back exactly when one of its group went out less than its window ago. |
| Notifications.GroupsApart | app/agent/notifications.py:250 | A debounce group is one name given for one event type, or one key. |
| Notifications.AtMostOnce | app/agent/notifications.py:232-280 | Over every run with restarts an occurrence is sent at most once, plus once per process that died between delivering and marking it, if the run spells its key in one way (daily, or suffix or id). |
| Notifications.SentTwiceIff | app/agent/notifications.py:232-280 | The keys that some run without such deaths sends twice are exactly those whose suffix is spelled like a daily key. |
| Notifications.DailySpellingSendsTwice | app/agent/notifications.py:232-246 | For every event type and day, a suffix spelled like a daily key and that day's daily event share a dedup key and are both sent. |
| Recommender.FailureRuleIff | app/agent/recommender.py:218-247 | The failure rule proposes if and only if at least half of at least five finished trades among the twenty newest failed and the live size is above the floor, and then 90 percent rounded half to even, at least 10. |
| Recommender.ProfitRuleIff | app/agent/recommender.py:249-276 | The profit rule proposes if and only if at least five trades fall short of the threshold on average and it is below the ceiling, and then five more, at most 100. |
| Recommender.SlippageRuleIff | app/agent/recommender.py:191-216 | The slippage rule proposes if and only if at least five fills exceed the limit on average, and then 85 percent rounded half to even, at least 1. |
| Recommender.MeanSides | app/agent/recommender.py:191-216 | The average the rules compare lies on the side of a bound on which all samples lie. |
| Recommender.TradeSizeFalls | app/agent/recommender.py:218-247 | The proposed trade size is in bounds and strictly below the live one; at the floor nothing is proposed. |
| Recommender.ProfitThresholdRises | app/agent/recommender.py:249-276 | The proposed profit threshold is in bounds and strictly above the live one; at the ceiling nothing is proposed. |
| Recommender.SlippageDirection | app/agent/recommender.py:191-216 | The proposed slippage limit is in bounds; it rises exactly for live limits in [30/17, 2) and (50/17, 3), is equal exactly at 1, 2 and 3, and falls elsewhere. |
| Recommender.IntegerSlippage | app/agent/recommender.py:191-216 | An integer slippage limit never rises and strictly falls from 4 on. |
| Recommender.ClampedValue | app/agent/recommender.py:50-56 | The clamp is the nearest allowed value. |
| Recommender.GeneratedAreApprovable | app/agent/recommender.py:280-325 | For every history and every live value inside the allowlist, each proposal passes every check of approve at once, its stored current text is the live text, and it prints back to itself. |
| Chunking.WindowsProgress | app/agent/knowledge.py:357-363 | Every window after the first is longer than the overlap: it adds at least one character. |
| Chunking.WindowsLossless | app/agent/knowledge.py:357-363 | The windows, with the overlap dropped from all but the first, concatenate to the text. |
| Chunking.SlideWindows | app/agent/knowledge.py:357-363 | The window loop ends and produces the stripped nonempty windows in order. |
| Chunking.ChunkText | app/agent/knowledge.py:332-364 | The chunks of all sections, in order, for the normalised size and overlap. |
| Chunking.AskedForIsUsed | app/agent/knowledge.py:345-348 | A size of at least 200 and an overlap below it are used as given; the fallbacks otherwise. |
| Chunking.WindowAt | app/agent/knowledge.py:357-363 | Window k starts k steps in and has the full size up to the end; the last window is the first that reaches the end. |
| Chunking.LongBodyChunks | app/agent/knowledge.py:353-363 | A long body without blank windows gives one chunk per window, each starting a size less an overlap after the one before. |
| Chunking.DocumentOrder | app/agent/knowledge.py:349-364 | Chunks come in document order. |
| Chunking.EveryCharacterSurvives | app/agent/knowledge.py:345-364 | Every character that is not whitespace lies in some chunk of its section, for every chunk size and overlap asked for. |
| Chunking.ChunksAreStretches | app/agent/knowledge.py:345-364 | Every chunk is a nonempty stretch of one section, no longer than the window, without whitespace at its ends. |
| Lessons.Memory.ReviseLesson | app/agent/memory.py:490-529 | The old version is snapshotted, then the lesson moves to the next version with the union of evidence. |
| Lessons.FaithfulHistory | app/agent/memory.py:490-529 | Over every run with crashes between snapshot and save, every version a lesson has left is in the history, and every snapshot of that version is exactly it. |
| Lessons.SnapshotsAreReal | app/agent/memory.py:367-389 | Every snapshot is its lesson as it stood at some earlier point of the run. |
| Lessons.EvidenceGrows | app/agent/memory.py:512-521 | A lesson's version never falls, its evidence and related ids only grow, and it is unchanged while its version is. |
| Lessons.Memory.Learn | app/agent/learning.py:426-506 | A detected contradiction, or no overlap, adds one lesson and changes nothing else; otherwise the lesson sharing most evidence is revised and relabelled; insufficient measurements change nothing. |
| Lessons.RevisionCarries | app/agent/memory.py:512-521 | A revision carries the content and confidence it was given, keeps what it was not given, and has exactly the old and new ids, each once. |
| Lessons.SnapshotComesFirst | app/agent/memory.py:522-529 | A revision, finished or cut off, first puts exactly the lesson as it stood into the history; cut off, it changes nothing else. |
| Lessons.LearntAsMeasured | app/agent/learning.py:445-506 | What is learnt is labelled negative exactly for a losing measurement and positive exactly for a winning one with few failures; a folded lesson takes the blended confidence and exactly the window's ids. |
| Lessons.ContradictionKeepsOld | app/agent/learning.py:445-502 | A measurement opposing a lesson about the same evidence adds a lesson of its own and leaves every lesson, label and snapshot unchanged if and only if its statistics carry an average (those of `measure` always do) or its failure rate is at least one half; otherwise it is folded into an existing lesson, whose direction it overwrites. |

## Left out

- Unicode decimal digits, `NaN` and `Infinity` texts and the exponent limits of `Decimal`: the parser model refuses such texts, so nothing is claimed about them.
- The 28-digit precision of the default decimal context in the recommender's arithmetic: values are exact reals.
- A failing assignment while settings are being restored after a failed RiskEngine installation or during compensation (app/agent/approval.py:436-441, 576-598): restoring always succeeds in the model.
- Rows created already APPROVED, or edited outside the workflow: rows enter the model in any other status.
- Two processes on one database: one process at a time runs or starts.
- How the safety gates of approve are read (kill switch, LIVE reason): one nondeterministic yes or no per check.
- Audit logging, measurement bookkeeping, returned model objects and messages: output with no effect on the modelled state.
- The transfer strategy of the auto loop, the exchange adapters, the risk rules inside `validate_triangle`: an execution begins or is refused, nondeterministically.
- ControllerObject.AutoTradingController.StopTrading: while the object waits, its loop does nothing but end; other steps during that wait are in Controller.
- Secret filtering and sanitising of texts: a function given from outside where it is applied, and the identity in the tool loop's messages.
- Which texts count as an explicit balance query: an input of the tool loop.
- The wall-clock limits of the tool loop (per-tool and total deadline): a timeout is a broken tool, a total deadline is not modelled.
- Notifications.AtMostOnce: dedup reads and writes that fail are not modelled, and concurrent notify calls are taken one after the other.
- Recommender deduplication against existing rows and the wording of reasons: no hard property.
- Pipeline: the texts of facts and patterns are inputs; confidences are exact reals.
- Splitting a document into sections by headers: the sections are an input of Chunking.ChunkText.
- Lessons: label writes that fail, and the blending formula of confidences, which is an input.
