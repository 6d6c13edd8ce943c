# Verification of the decision-to-order pipeline

A Dafny model of the trading agent, from the observed market to the order that reaches the terminal, with
proofs about every run of it. It covers the nine-stage agent cycle and its loop, the Donchian strategy and
signal selection, the validation of the LLM's JSON, the thirteen risk rules with the supervisor's verdict
ledger, the idempotent executor, the watchdog, the memory window, the history summaries and the reconnect
backoff.

Everything outside the program is universally quantified: the LLM's reply, the terminal's answer to every
call, each collaborator's failure (before or after its work), clock readings and account changes are arbitrary
values of *scripts* (`CycleScript`, `TerminalScript`, `PortReply`, `Turn`). A class that the program updates in
place is a Dafny class whose methods are proved equal to a function of the old state; the theorems are about
those functions, over whole runs.

| file | subject |
|---|---|
| `Common`, `Market` | optional values, calls that raise, text tests; candles, positions, observations |
| `Signals`, `Planner` | Donchian reader, containment, what the primary signal means; validation of the LLM's proposal |
| `Risk`, `Supervisor` | rules, engine, monotonicity; verdict ledger, spacing, starvation |
| `Executor`, `ExecutorLaws` | the executor as it runs; gating, the status and the calls of every attempt, idempotency by client id |
| `Watchdog` | counters and latch against the event history |
| `Agent` | stages, cycle and loop as they run |
| `CycleLaws` | effects, no order without a breakout, exactly when an order goes out |
| `CycleTrace`, `StageStatuses` | trace grammar, ok, failures that escape their stage; the status and message of every stage |
| `AuditTrail` | the rows that a cycle offers to memory |
| `LoopLaws` | halting, termination, fairness |
| `ClosedLoop`, `PositionSides`, `AgentRuns` | exposure safety, order rate and position sides with the account in the loop; the same for the agent's own loop |
| `Memory`, `Clip` | append and prune as a rolling window; normal form of clipped summaries |
| `History`, `Connection` | conservation of deal totals; retries and backoff |

## Main results

- **Exposure safety** (`ClosedLoop.ExposureSafety`). If positions only appear as fills of orders sent in the
  same cycle, at most as large, no run of cycles takes the account over its position or volume limit; if a fill
  also carries its order's symbol and side, no account ever holds two positions on one side of a symbol
  (`PositionSides.OnePositionPerSide`).
- **Order rate** (`ClosedLoop.OrderRate`). n orders for a symbol and side within T satisfy (n-1)W <= T; on
  either side (n-1)C <= T. Both hold for `TradingAgent.Run` (`AgentRuns.LoopIsTurns`, `AgentRuns.LoopExposure`,
  `AgentRuns.LoopOrderRate`).
- **No order without a breakout** (`CycleLaws.NoOrderWithoutBreakout`), for any LLM; over whole runs, every attempt
  carries out the decision of a cycle that saw the break (`ClosedLoop.EveryAttemptIsJustified`,
  `AgentRuns.LoopAttemptIsJustified`).
- **Exactly when an order goes out** (`CycleLaws.OrderIff`): the LLM asked for a well-formed trade, the first
  strategy that sees a break sees it that way, the observed market and the verdicts so far pass every gate, and
  nothing that was met on the way failed. It rests on `Signals.PrimaryIsFirstBreak`, `CycleLaws.FinalTradeIff` and
  `CycleLaws.DecisionApprovedIff`, which speak of the candles, the JSON and the observation alone.
- **Trace grammar and exact failure conditions** of a cycle, in terms of the faults it meets
  (`CycleTrace.CycleGrammar`, `CycleTrace.OkIffFaultFree`, `CycleTrace.ErrorIffBlankFault`,
  `CycleTrace.NineStagesIff`, `CycleLaws.CycleEffects`), and the status of every stage
  (`StageStatuses.CycleStatuses`).
- **Audit trail**: the exact rows that each cycle offers to memory, whatever fails (`AuditTrail.CycleOffersTrail`).
- **At-most-once submission and idempotency by client id** (`ExecutorLaws.AtMostOnce`,
  `ExecutorLaws.RepliesAreReplayed`, `ExecutorLaws.RecordCarriesId`), exact gating of `order_send`
  (`ExecutorLaws.SendsIffGatesOpen`), and the exact status and calls of every attempt
  (`ExecutorLaws.AttemptStatus`, `ExecutorLaws.AttemptCalls`).
- **Watchdog**: the latch, its time, the totals and the last error equal statements about the event history
  (`WatchdogLatch.LatchedIff`, `WatchdogLatch.TripTime`), and a cycle adds exactly its reports to that history
  (`LoopLaws.CycleReports`).
- **Rolling window**, **conservation**, **normal form**, **geometric backoff**.

## Where the code and its documentation differ

The model follows the code.

- `docs/risk/rules.md` lets unknown daily P&L and unknown spread abstain; the rules fail closed.
  `Risk.UnknownReadingsReject` gives a trade that each of them rejects; unknown P&L always does
  (`Risk.UnknownPnlRejects`), unknown spread exactly when its limit is on (`Risk.UnknownSpreadAbstainsIff`).
- `docs/operations/agent.md` promises nine outcomes per cycle. They are recorded exactly when the cycle was not
  refused, OBSERVE, CONTEXT and STRATEGY succeeded, and no later fault that it meets has a blank message
  (`CycleTrace.NineStagesIff`).
- `src/mt5_agent/application/agent.py` says that failures become outcomes. One escapes its stage exactly when its
  message is blank, because the outcome's own constructor then raises (`CycleTrace.ErrorIffBlankFault`; an observer
  that times out without a message, `CycleTrace.BlankFaultEscapes`); the cycle is still not ok
  (`CycleTrace.OkIffFaultFree`).
- `docs/operations/agent.md` promises six memory rows per cycle; `AuditTrail.FullTrailIff` says exactly when.
- `src/mt5_agent/domain/execution.py` calls FAILED certain. An order can go out and end FAILED although no refusal
  of it was read: exactly when anything but a timeout or OS error escapes from the send, from its return code, or
  from an accepted fill (`ExecutorLaws.FailedUncertainIff`). `ExecutorLaws.FailedYetSent` breaks off the send,
  `ExecutorLaws.FailedYetAccepted` fills the order.
- `src/mt5_agent/risk/config.py` refuses zero-length sessions by refusing equal bounds; the session from 24 to 0
  passes and holds no hour (`Risk.EmptySessionIff`).
- The counter test in the watchdog's `status` is implied by the latch (`WatchdogLatch.HaltIffLatched`).
- The exposure rule counts a missing volume as 0 while the executor sends its default
  (`ExecutorLaws.SentVolumeIsReviewedIff`); the agent's substitution before the review is what makes exposure
  safety hold.
- Raising the daily-loss limit keeps approvals only for a balance that is not negative (`Risk.LooserDailyLossIff`);
  the monotonicity laws ask for exactly that where two limits differ.

## Assumptions

Prices, volumes, P&L and times are reals, so NaN, infinities and rounding are excluded. Times are seconds on one
UTC line. The spacing and rate theorems assume one clock: a risk context is read no later than its verdict is
timed, and no earlier than the verdict before it (`SupervisorBoundary.Clocked`, `ClosedLoop.ClockedTurns`). Exposure
safety assumes an honest account (`ClosedLoop.Honest`): an observation shows the open positions, which otherwise
only shrink, and a fill appears in its own cycle or never. A run of the agent's own loop needs this only of the
turns that it makes. Subset types
(`TradeProposal`, `Candle`, `RiskConfig`, ...) hold what the frozen records' constructors check. Texts that only
humans read are shortened; of a message only blankness matters.

## Model

| member | source | states |
|---|---|---|
| Signals.AnalyzeAll | src/mt5_agent/application/strategy_service.py:27-35 | one signal per strategy in registration order; a strategy that raises contributes a FLAT signal |
| Signals.SignalsReport | src/mt5_agent/application/strategy_service.py:27-35 | each of those signals says what the candles show to its strategy |
| Signals.SignalReports | src/mt5_agent/strategies/measure_move.py:56-119 | a signal is LONG or SHORT exactly for the strategy's break, with its name, and its confidence only then |
| Signals.PrimaryIsFirstBreak | src/mt5_agent/domain/strategy.py:103-115 | the primary signal is that of the first strategy that sees a break, else that of the first strategy; without strategies it raises |
| Signals.DefaultPrimary | scripts/run_agent.py:105 | with the baseline and one Donchian reader the primary signal goes exactly the way the candles break |
| Signals.FirstDirectional | src/mt5_agent/domain/strategy.py:103-115 | the result is the first directional signal, or the fallback when all are flat |
| Signals.LongIffBreaksUp | src/mt5_agent/strategies/measure_move.py:71-90 | LONG exactly when the last close exceeds every earlier high of the lookback window and the length gate passes |
| Signals.ShortIffBreaksDown | src/mt5_agent/strategies/measure_move.py:71-90 | SHORT exactly when the last close is below every earlier low; with valid candles the two breaks exclude each other |
| Signals.RaisesIffSingleCandle | src/mt5_agent/strategies/measure_move.py:62-75 | the reader raises only for one candle that passes a length gate of one |
| Signals.OldCandlesIrrelevant | src/mt5_agent/strategies/measure_move.py:71-75 | candles older than the window never change the result once the gate passes |
| Signals.ShorterLookbackKeepsBreak | src/mt5_agent/strategies/measure_move.py:71-90 | shrinking the lookback keeps every LONG and SHORT |
| Signals.MirrorSwapsDirections | src/mt5_agent/strategies/measure_move.py:56-119 | reflecting all prices about a constant swaps LONG and SHORT and preserves raising |
| Signals.PrimaryNeedsBreak | src/mt5_agent/application/agent.py:119-122 | the primary signal is directional only if some registered Donchian reader sees that break |
| Planner.ActionableIff | src/mt5_agent/ai/planner.py:54-87 | whatever the provider returns or raises, a BUY or SELL comes out exactly for a well-formed, ordered request in the signal's direction |
| Planner.PlannedTrade | src/mt5_agent/ai/planner.py:170-202 | a planned trade carries the LLM's own numbers, an ordered positive bracket and the input's symbol |
| Planner.HoldIsEmpty | src/mt5_agent/ai/planner.py:54-87 | a HOLD carries no price or volume, keeps the LLM's numbers exactly for a well-formed HOLD request, and is the planner's empty one otherwise |
| Risk.HourOfDay | src/mt5_agent/risk/rules.py:117 | the session rule reads the UTC hour of the day |
| Risk.SessionHours | src/mt5_agent/risk/config.py:21-24 | a session holds as many hours as its bounds are apart around the clock, from its start |
| Risk.EmptySessionIff | src/mt5_agent/risk/config.py:15-19 | among accepted bounds only 24 to 0 holds no hour |
| Risk.VerdictIsOrdered | src/mt5_agent/risk/engine.py:33-51 | a verdict carries its caller's time and each breach once, in the engine's order |
| Risk.CheckDuplicate | src/mt5_agent/risk/rules.py:186-212 | the scan reports exactly an open same-side position or an approval of the same trade at most one window old |
| Risk.CheckCooldown | src/mt5_agent/risk/rules.py:215-233 | the youngest-age loop reports exactly whether some past decision on the symbol is younger than the cooldown |
| Risk.RunRules | src/mt5_agent/risk/engine.py:44-48 | the loop collects the codes of all breached rules, in rule order |
| Risk.Validate | src/mt5_agent/risk/engine.py:33-51 | HOLD passes untouched; otherwise the verdict carries every breach |
| Risk.ApprovedIff | src/mt5_agent/risk/result.py:41-54 | approved iff HOLD or no rule is breached; the codes are exactly the breached rules |
| Risk.ApprovedIffGatesPassed | src/mt5_agent/risk/rules.py:37-268 | approval of a trade is exactly the conjunction of the guide's gates, failing closed on unknown P&L, spread and point size |
| Risk.UnknownPnlRejects | src/mt5_agent/risk/rules.py:55-63 | unknown daily P&L never abstains: every trade is rejected with that code |
| Risk.UnknownSpreadAbstainsIff | src/mt5_agent/risk/rules.py:125-139 | unknown spread breaches its rule iff the limit is on, and so decides as if it were off iff it is off or another gate is closed |
| Risk.UnknownReadingsReject | docs/risk/rules.md:11-16 | a concrete trade that passes with known readings and is rejected once either is unknown |
| Risk.ApprovalMonotone | src/mt5_agent/risk/rules.py:37-251 | approval survives loosening any limits (the daily-loss share where it is looser), removing positions and removing decision records |
| Risk.LooserDailyLossIff | src/mt5_agent/risk/rules.py:55-63 | raising the daily-loss limit never rejects more, iff the balance is not negative or the limit is unchanged |
| SupervisorBoundary.Supervisor.constructor | src/mt5_agent/risk/supervisor.py:38-45 | a supervisor starts with an empty ledger |
| SupervisorBoundary.Supervisor.Check | src/mt5_agent/risk/supervisor.py:55-63 | the pure check gives the verdict a review would give |
| SupervisorBoundary.Supervisor.Review | src/mt5_agent/risk/supervisor.py:65-79 | the verdict sees the ledger, and is appended to it unless the proposal is HOLD |
| SupervisorBoundary.ReviewApprovesIff | src/mt5_agent/risk/supervisor.py:55-94 | a trade is approved iff the context passes every gate and neither the caller's history nor the ledger disturbs it |
| SupervisorBoundary.ApprovalKeepsDistance | src/mt5_agent/risk/supervisor.py:81-94 | an approved trade is more than a window after every approval of it and a cooldown after every record on its symbol |
| SupervisorBoundary.LongerLedgerOnlyRejects | src/mt5_agent/risk/supervisor.py:81-94 | what is approved with a ledger is approved with any part of it |
| SupervisorBoundary.RunIsSpaced | src/mt5_agent/risk/supervisor.py:72-94 | over every clocked run each approved record keeps its distance from all earlier records |
| SupervisorBoundary.CooldownStarves | src/mt5_agent/risk/rules.py:222-233 | a proposal less than a cooldown after any earlier one on its symbol is rejected, even if that one was rejected |
| SupervisorBoundary.AtMostFirstApproved | src/mt5_agent/risk/supervisor.py:75-78 | when every later proposal on a symbol is too soon, at most the first is approved |
| SupervisorBoundary.HoldsChangeNothing | src/mt5_agent/risk/supervisor.py:75-78 | removing the HOLD calls of a run leaves the same ledger |
| Executor.MT5TradeExecutor.constructor | src/mt5_agent/execution/executor.py:51-71 | an executor starts with an empty ledger |
| Executor.MT5TradeExecutor.ExecuteOrder | src/mt5_agent/execution/executor.py:82-101 | a known key is replayed without a terminal call; a new one is attempted once, remembered, and its calls are all that is logged |
| Executor.MT5TradeExecutor.RunAttempt | src/mt5_agent/execution/executor.py:103-160 | every attempt ends in a record: rejections, dry run, live result, or the status of the escaping exception |
| Executor.MT5TradeExecutor.ExecuteOnTerminal | src/mt5_agent/execution/executor.py:162-197 | connection, account and mode are verified, and the module loaded, before anything else |
| Executor.MT5TradeExecutor.RequireModule | src/mt5_agent/execution/executor.py:296-299 | the module is loaded on first use only, and stays unloaded if loading raises |
| Executor.MT5TradeExecutor.Submit | src/mt5_agent/execution/executor.py:198-245 | quote, check, send, verify in that order, stopping at the first refusal or exception |
| Executor.ToRequest | src/mt5_agent/execution/executor.py:248-258 | a request exists iff the trade is not HOLD and the key not blank; it keeps the symbol, side, key and every number that the proposal names, and always has a positive volume |
| ExecutorLaws.SendsIffGatesOpen | src/mt5_agent/execution/executor.py:103-215 | an attempt sends exactly the reviewed order at its side's quote when every gate is open, and nothing otherwise |
| ExecutorLaws.SendFollowsItsCheck | src/mt5_agent/execution/executor.py:198-215 | the send directly follows a check of the identical payload, a quote, an account read and a connected check |
| ExecutorLaws.AttemptStatus | src/mt5_agent/execution/executor.py:103-245 | the status of every attempt from its inputs and the terminal's answers, dry runs and attempts that send nothing included |
| ExecutorLaws.RecordShape | src/mt5_agent/execution/executor.py:301-330 | only a fill leaves ids, a price and a slippage; the asked price is that of the order's side, and is there iff the order was filled or refused |
| ExecutorLaws.AttemptCalls | src/mt5_agent/execution/executor.py:162-285 | exactly which terminal calls every attempt makes, in order |
| ExecutorLaws.AttemptLoads | src/mt5_agent/execution/executor.py:296-299 | the module is at hand afterwards iff it was before or the attempt got past the account with it |
| ExecutorLaws.StatusAfterSend | src/mt5_agent/execution/executor.py:215-245 | SUCCESS iff the accepted reply is a readable fill, UNKNOWN iff a timeout escapes the send or the reading of its reply, FAILED in every other case |
| ExecutorLaws.SuccessRecord | src/mt5_agent/execution/executor.py:228-245 | a success repeats the asked price, the reported fill, their difference and the broker's ids |
| ExecutorLaws.StatusSound | src/mt5_agent/domain/execution.py:21-33 | REJECTED means nothing sent; non-dry SUCCESS means one accepted send with a ticket; a send timeout is UNKNOWN; FAILED means nothing sent, a refusal read, or a non-timeout exception that hid the reply; dry and disabled modes call nothing |
| ExecutorLaws.FailedUncertainIff | src/mt5_agent/domain/execution.py:21-27 | FAILED with an order out and no refusal read: iff every gate is open and anything but a timeout escapes from the send, its return code or an accepted fill |
| ExecutorLaws.FailedYetSent | src/mt5_agent/execution/executor.py:157-160 | a concrete terminal whose send breaks off and leaves a FAILED record |
| ExecutorLaws.FailedYetAccepted | src/mt5_agent/execution/executor.py:157-160 | a concrete terminal that fills an order and leaves a FAILED record |
| ExecutorLaws.SentVolumeIsReviewedIff | src/mt5_agent/execution/executor.py:248-252 | the sent volume is the volume the exposure rule counted iff the proposal names one |
| ExecutorLaws.AtMostOnce | src/mt5_agent/execution/executor.py:85-89 | over any calls and terminals no client id is sent twice and sends never outnumber ledger keys |
| ExecutorLaws.LedgerGrows | src/mt5_agent/execution/executor.py:82-101 | no call changes or drops an earlier key's record |
| ExecutorLaws.RepliesAreReplayed | src/mt5_agent/execution/executor.py:86-89 | every later call with the client id, whatever its generated id, decision and terminal, returns the first record, changes and sends nothing |
| ExecutorLaws.RecordCarriesId | src/mt5_agent/execution/executor.py:85-89 | the returned record carries the caller's client id, or the generated one if the caller named none |
| WatchdogLatch.Watchdog.constructor | src/mt5_agent/application/watchdog.py:38-44 | a watchdog starts untripped with empty counters |
| WatchdogLatch.Watchdog.Success | src/mt5_agent/application/watchdog.py:50-53 | a success clears its kind's counter and nothing else |
| WatchdogLatch.Watchdog.Failure | src/mt5_agent/application/watchdog.py:55-65 | a failure raises its kind's counter and trips at the threshold, keeping the first trip time |
| WatchdogLatch.Watchdog.Observe | src/mt5_agent/application/watchdog.py:67-70 | an observation moves only the freshness time |
| WatchdogLatch.Watchdog.ManualReset | src/mt5_agent/application/watchdog.py:72-76 | a reset clears counters, latch and last error, not the totals |
| WatchdogLatch.Watchdog.Halts | src/mt5_agent/application/watchdog.py:78-94 | halts iff the latch is set or some counter has reached the threshold |
| WatchdogLatch.LatchedIff | src/mt5_agent/application/watchdog.py:50-76 | the latch is set iff, since the last reset, some kind failed often enough without a success of that kind between |
| WatchdogLatch.HaltIffLatched | src/mt5_agent/application/watchdog.py:78-94 | the counter test of status is implied by the latch, so halting is exactly being latched |
| WatchdogLatch.TripTime | src/mt5_agent/application/watchdog.py:55-65 | a trip carries the time of the failure that completed the first run of failures since the last reset |
| WatchdogLatch.TotalsCount | src/mt5_agent/application/watchdog.py:50-65 | the totals count the whole history; nothing resets them |
| WatchdogLatch.LastErrorIs | src/mt5_agent/application/watchdog.py:55-76 | the last error is the end, at most 500 characters, of the last message since the last reset |
| WatchdogLatch.LastSeen | src/mt5_agent/application/watchdog.py:67-70 | the observation time is that of the last observation |
| WatchdogLatch.StatusIs | src/mt5_agent/application/watchdog.py:78-90 | over any history: UNHEALTHY iff latched, else DEGRADED iff the observation is too old, else HEALTHY |
| WatchdogLatch.OnlyResetClears | src/mt5_agent/application/watchdog.py:72-76 | without a reset a trip keeps its time forever |
| Agent.CycleState.Append | src/mt5_agent/domain/agent.py:44-47 | an outcome with a blank summary raises and is not recorded |
| Agent.TradingAgent.Observe | src/mt5_agent/application/agent.py:263-287 | OBSERVE and CONTEXT outcomes, the stored observation and the freshness note, on every failure path |
| Agent.TradingAgent.StrategyAndMemory | src/mt5_agent/application/agent.py:289-317 | the primary signal, its offer to the strategy memory, and the STRATEGY and MEMORY outcomes |
| Agent.TradingAgent.PlanTrade | src/mt5_agent/application/agent.py:319-342 | the proposal, HOLD without a planner, and its offer to the trade memory, or a FAILED outcome |
| Agent.TradingAgent.Propose | src/mt5_agent/application/agent.py:320-327 | a proposal comes out iff the input is built and the planner, if there is one, does not raise; otherwise the first of the two exceptions |
| Agent.TradingAgent.ResolveVolume | src/mt5_agent/application/agent.py:348-350 | only the volume of a trade may change, from missing to the default; it raises iff a needed default is not positive |
| Agent.TradingAgent.Supervise | src/mt5_agent/application/agent.py:344-377 | the completed proposal is reviewed in the observed context and the decision offered to the trade memory |
| Agent.TradingAgent.Review | src/mt5_agent/application/agent.py:367-377 | a decision is stored and offered only if the review returned; a review that raises afterwards is recorded in the verdict ledger all the same |
| Agent.TradingAgent.ExecuteDecision | src/mt5_agent/application/agent.py:379-401 | only an approved non-HOLD decision is executed, and its record offered to the trade memory |
| Agent.TradingAgent.Verify | src/mt5_agent/application/agent.py:403-417 | skipped without a record |
| Agent.TradingAgent.UpdateMemory | src/mt5_agent/application/agent.py:419-439 | the observation and the outcome of an execution are offered, then the last stage is recorded |
| Agent.TradingAgent.RunStages | src/mt5_agent/application/agent.py:220-229 | the stages in order, ended early only by a failed OBSERVE or an escaping exception |
| Agent.TradingAgent.RunCycle | src/mt5_agent/application/agent.py:198-233 | always returns a cycle; a halted watchdog refuses it; its outcome is reported to the watchdog |
| Agent.TradingAgent.RunOne | src/mt5_agent/application/agent.py:252-255 | one iteration adds the cycle of the symbol whose turn it is, and the rest of the run is what remains |
| Agent.TradingAgent.Run | src/mt5_agent/application/agent.py:235-260 | the loop stops on stop, max_cycles or halt, serves symbols round-robin, and raises only for an empty symbol list |
| CycleTrace.CycleGrammar | src/mt5_agent/application/agent.py:220-229 | recorded stages are in lifecycle order and form one of a few shapes under arbitrary failures |
| CycleLaws.CycleEffects | src/mt5_agent/application/agent.py:344-388 | the exact condition under which a cycle reviews and executes, and with which decision |
| CycleLaws.AtMostOneExecution | src/mt5_agent/application/agent.py:379-388 | at most one attempt per cycle, with the approved non-HOLD decision of that cycle |
| CycleLaws.ExecutionIsKeyed | src/mt5_agent/application/agent.py:388 | the decision is attempted under the cycle's id, on the cycle's terminal, unless that id was used before |
| CycleLaws.DecisionApprovedIff | src/mt5_agent/application/agent.py:344-367 | the verdict of a cycle in terms of its observation, its clock and the verdicts so far, both ways |
| CycleLaws.FinalTradeIff | src/mt5_agent/application/agent.py:319-350 | the reviewed proposal is a trade iff the LLM asked for it in the direction of the first break, and is then the LLM's trade with the default for a missing volume |
| CycleLaws.OrderIff | src/mt5_agent/application/agent.py:289-393 | exactly when an order goes to the executor, and which |
| CycleLaws.NoPlannerHolds | src/mt5_agent/application/agent.py:324-325 | without an LLM every proposal is an empty HOLD |
| StageStatuses.CycleStatuses | src/mt5_agent/application/agent.py:198-439 | every recorded stage is SKIPPED only where there was nothing to do, FAILED with the message of its fault, else OK; a refused cycle changes nothing |
| CycleTrace.FailureBlocksExecution | src/mt5_agent/application/agent.py:286-383 | a failed OBSERVE, PLAN or SUPERVISE leaves the executor untouched |
| CycleTrace.OkIffFaultFree | src/mt5_agent/domain/agent.py:66-68 | a cycle is ok iff it was not refused and no collaborator it met failed |
| CycleTrace.NineStagesIff | docs/operations/agent.md:13-16 | the nine outcomes are recorded iff the cycle was not refused, the first three calls succeeded and no later fault met has a blank message |
| CycleTrace.BlankFaultEscapes | src/mt5_agent/application/agent.py:286-287 | a concrete failed observation that leaves no outcome and a cycle with an error |
| CycleTrace.ErrorIffBlankFault | src/mt5_agent/domain/agent.py:44-47 | a cycle has an error iff it was refused or some fault it met, at any stage, has a blank message |
| AuditTrail.CycleOffersTrail | src/mt5_agent/application/agent.py:289-439 | each cycle offers memory exactly the signal, proposal, decision, record and outcome of the stages that got that far, in order |
| AuditTrail.ExecutionIsAudited | src/mt5_agent/application/agent.py:368-393 | the trail shows the decision iff one was made, and directly behind it the executor's record iff it returned |
| AuditTrail.FullTrailIff | docs/operations/agent.md:17-18 | the six documented rows are offered, in order, iff all memories exist, STRATEGY succeeded, the executor returned a record and a failed VERIFY can be recorded |
| CycleLaws.NoOrderWithoutBreakout | src/mt5_agent/application/agent.py:319-388 | an executed decision needs a visible structure break, an ordered bracket of the LLM's prices and a pass of every rule |
| CycleLaws.OrderNeedsThatBreak | src/mt5_agent/strategies/measure_move.py:86-90 | with the baseline and one Donchian reader the break is that reader's |
| CycleLaws.OrderFitsMarket | src/mt5_agent/application/agent.py:351-366 | spread and stop distance in observed points, known loss and no same-side position hold for every executed decision |
| LoopLaws.CycleMovesStreak | src/mt5_agent/application/agent.py:441-457 | an ok cycle clears the streak, a failed one lengthens it and halts the agent at the threshold |
| LoopLaws.CycleReports | src/mt5_agent/application/agent.py:441-457 | a cycle adds to the watchdog's history its observation and then its success or failure, with its error |
| LoopLaws.FailuresOnlyAtTheEnd | src/mt5_agent/application/agent.py:246-260 | threshold-many failures in a row can only be the last cycles of a run |
| LoopLaws.FailingLoopTerminates | src/mt5_agent/application/agent.py:246-260 | if all cycles fail the run has exactly min(threshold, max_cycles) cycles, even without max_cycles |
| LoopLaws.BlindLoopTerminates | src/mt5_agent/application/agent.py:286-287 | an agent that cannot observe stops by itself after exactly the threshold |
| LoopLaws.CyclesAreRoundRobin | src/mt5_agent/application/agent.py:252-255 | cycle i is for symbol i mod k |
| LoopLaws.RunIsFair | src/mt5_agent/application/agent.py:252-255 | in every run two slots, and two symbols if none is listed twice, are served equally often, give or take one cycle |
| ClosedLoop.SentOrderFits | src/mt5_agent/risk/rules.py:66-93 | a cycle sends at most one order and its volume fits beside the observed positions |
| ClosedLoop.TurnStaysWithin | src/mt5_agent/application/agent.py:344-367 | one turn keeps the account within limits at the fill and afterwards |
| ClosedLoop.ExposureSafety | src/mt5_agent/risk/rules.py:66-93 | over every run, position count and gross volume stay within their limits between cycles and at every fill |
| ClosedLoop.EveryAttemptIsJustified | src/mt5_agent/application/agent.py:319-401 | each attempt of a run carries out the approved decision of one of its cycles, which saw the break, an ordered bracket and a fitting market |
| ClosedLoop.RunIsTracked | src/mt5_agent/risk/supervisor.py:65-94 | over every run each attempt has its recorded approval and attempts keep their distance |
| ClosedLoop.OrderRate | src/mt5_agent/risk/rules.py:199-233 | n orders within T satisfy (n-1)*window <= T per symbol and side, (n-1)*cooldown <= T per symbol |
| PositionSides.OnePositionPerSide | src/mt5_agent/risk/rules.py:193-198 | over every run with matching fills no two open positions share symbol and side, between cycles and at every fill |
| AgentRuns.LoopIsTurns | src/mt5_agent/application/agent.py:235-260 | the agent's loop ends in the state after as many turns as it ran cycles |
| AgentRuns.LoopStopsWhen | src/mt5_agent/application/agent.py:246-260 | the loop goes on as long as it is not stopped, below max_cycles and not halted, and no longer |
| AgentRuns.LoopExposure | src/mt5_agent/risk/rules.py:66-93 | the account of the agent's loop stays within its limits, with one position per symbol and side, between cycles and at every fill |
| AgentRuns.LoopAttemptIsJustified | src/mt5_agent/application/agent.py:235-260 | each attempt of the agent's loop is justified by one of the cycles that it ran |
| AgentRuns.LoopOrderRate | src/mt5_agent/risk/rules.py:199-233 | the order rate bounds hold for all attempts that the agent's loop makes |
| Memory.SQLiteMemoryStore.Append | src/mt5_agent/memory/sqlite_store.py:48-63 | a row with the next id is added at the end |
| Memory.SQLiteMemoryStore.Prune | src/mt5_agent/memory/sqlite_store.py:101-111 | the scope keeps exactly its newest rows, other scopes are untouched, and the number of deleted rows is returned; a negative count raises |
| Memory.SQLiteMemoryStore.Recent | src/mt5_agent/memory/sqlite_store.py:65-92 | rows matching symbol, kind and since, newest first, at most limit, and none is missing but for newer ones; a limit below one raises |
| Memory.SQLiteMemoryStore.Count | src/mt5_agent/memory/sqlite_store.py:94-99 | the cardinality of the set of rows of the scope |
| Memory.ScopedMemory.Write | src/mt5_agent/memory/memories.py:37-55 | clip, append, prune; raises exactly for a blank summary |
| Memory.MatchesIff | src/mt5_agent/memory/sqlite_store.py:75-88 | what each condition of a query selects by itself; together they select what all do |
| Memory.PruneKeepsNewest | src/mt5_agent/memory/sqlite_store.py:101-111 | a prune leaves exactly the newest rows of its scope and every other scope untouched |
| Memory.RollingWindow | src/mt5_agent/memory/memories.py:53-55 | after any interleaving of writes each scope holds exactly its last keep_last records, with increasing ids |
| Memory.RecentIsNewestPrefix | src/mt5_agent/memory/memories.py:57-58 | recent is the newest-first filtered prefix of that window |
| Clip.ClipNormalForm | src/mt5_agent/memory/memories.py:21-23 | bounded, normal, agreeing with the normalised text up to the cut, keeping the words, idempotent |
| Clip.SplitAtSpaces | src/mt5_agent/memory/memories.py:22 | any run of whitespace separates words and leaves nothing behind |
| Clip.ClipKeepsBlankness | src/mt5_agent/domain/memory.py:62-64 | only a blank text clips to a blank summary |
| History.ClosedResults | src/mt5_agent/application/history_service.py:55-74 | groups, drops position 0, summarises and sorts |
| History.OneResultPerPosition | src/mt5_agent/application/history_service.py:71-74 | one result per nonzero position, strictly ascending |
| History.ResultsConserve | src/mt5_agent/application/history_service.py:60-73 | every column's total over the results equals that over the deals with a position |
| History.ProfitIsConserved | src/mt5_agent/application/history_service.py:51-53 | realized profit is the results' net plus the net of position-0 deals |
| History.SingleDeal | src/mt5_agent/application/history_service.py:51-74 | one deal makes a result that repeats it, and is worth its profit and charges |
| History.ResultAddsUp | src/mt5_agent/application/history_service.py:60-73 | every column of every result is the total over its position's deals, and the symbol that of the first |
| History.OrderIrrelevant | src/mt5_agent/application/history_service.py:57-59 | permuting the deals changes no position and no numeric column |
| Connection.ConnectionService.EnsureConnected | src/mt5_agent/application/connection_service.py:78-117 | at most max_attempts connects, only a connected health is returned, only terminal errors are retried, and it sleeps exactly between attempts |
| Connection.AttemptEnds | src/mt5_agent/application/connection_service.py:78-117 | an attempt returns the health iff connected, else the first exception, and is retried iff more are allowed and only the terminal failed |
| Connection.DelayIsGeometric | src/mt5_agent/application/connection_service.py:53-60 | the first delay is the configured one, each next one larger by the factor, and the cap replaces exactly those above it |
| Connection.DelayIsBounded | src/mt5_agent/application/connection_service.py:53-60 | a delay is never negative and never above the cap |
| Connection.DelayGrows | src/mt5_agent/application/connection_service.py:53-60 | delays never shrink |
| Connection.GeometricSleep | src/mt5_agent/application/connection_service.py:53-60 | uncapped total sleep times (factor-1) is delay times (factor^n - 1) |
| Connection.CappedSleep | src/mt5_agent/application/connection_service.py:53-60 | capped total sleep is at most n times the cap |

## Left out

- LLM transport, prompt text and JSON decoding: the reply is an arbitrary record of optional fields, a non-object, or an exception; the action field is taken after `str().upper()`.
- MetaTrader5 adapters and mappers: the terminal answers arbitrarily; that it cannot mutate the payload between check and send is assumed.
- Message texts, error codes and audit logs of execution records: only control flow, prices, ids and statuses are modelled.
- Signal facts, setups and rationales, and a proposal's provider, model and latency: no decision reads them.
- What a facade does with a row that a cycle offers: each offer has its own handler, so its failure changes nothing else; the facades are modelled on their own.
- Agent.TradingAgent.StrategyAndMemory: the notes read back from memory are left out; the read is contained, and no decision but the LLM's arbitrary one sees them.
- The explicit `signal_index` of `build_planner_input`: the agent never passes one.
- Record data payloads: the table keeps scope, kind, summary, symbol, creation time and id; times are compared as times, not as ISO texts.
- The SQL engine: INSERT, SELECT and DELETE have their stated meaning on a sequence of rows in id order.
- Pending orders and position tickets, prices and swaps: no rule reads them.
- Custom rule tuples and strategy hook overrides: the default rules, and the null and Donchian strategies with default hooks.
- Threads and real time: `stop()` is the end of the list of scripts, and DEGRADED staleness never halts.
- Executed prices: orders are priced from the tick, so no claim is made that a fill lies inside the bracket.
- ExecutorLaws.StatusSound: UNKNOWN is not shown to follow a send, because a timeout before the send is UNKNOWN too; what UNKNOWN means once an order went out is exact in ExecutorLaws.StatusAfterSend.
- Session windows, health aggregation, triage, dashboard, scripts and settings loading: they would only add easy members.
