/** One agent cycle: OBSERVE -> ... -> MEMORY UPDATE over collaborators that may fail at any point. */
module Agent {
  import opened Common
  import opened Market
  import opened Signals
  import opened Planner
  import opened Risk
  import opened SupervisorBoundary
  import opened Executor
  import opened WatchdogLatch
  import Memory

  datatype Stage =
    | OBSERVE | CONTEXT | STRATEGY | MEMORY | PLAN | SUPERVISE | EXECUTE | VERIFY | MEMORY_UPDATE

  datatype StageStatus = OK | SKIPPED | FAILED

  datatype StageOutcome = StageOutcome(stage: Stage, status: StageStatus, summary: string)

  datatype AgentCycle = AgentCycle(cycleId: string, symbol: string, stages: seq<StageOutcome>, error: string) {
    predicate Ok() {
      error == "" && !AnyFailed(stages)
    }
  }

  predicate AnyFailed(outcomes: seq<StageOutcome>) {
    exists i | 0 <= i < |outcomes| :: outcomes[i].status == FAILED
  }

  datatype AgentFields = AgentConfig(
    strategies: seq<Strategy>, hasPlanner: bool, defaultVolume: real,
    hasShortTerm: bool, hasTradeMemory: bool, hasStrategyMemory: bool,
    risk: RiskConfig, exec: ExecConfig, dog: WatchdogConfig)

  /** The strategy service refuses an empty list. */
  type AgentConfig = c: AgentFields | c.strategies != []
    witness AgentConfig([NullStrategy], false, 0.01, false, false, false,
      RiskConfig(1.0, 3.0, 3, 1.0, None, {Session(0, 24)}, None, true, true, 0.0, 600.0, 60.0, 100.0),
      ExecConfig(DryRun, false, false, 0.01, 0, 20), WatchdogConfig(5, 300.0))

  /** A collaborator that raises instead of doing its work, or once the work is done. */
  datatype Fault = NoFault | Before(exc: Exception) | After(exc: Exception)

  /** Everything outside the agent's control during one cycle: answers, faults and clock readings. */
  datatype CycleScript = CycleScript(
    cycleId: string, freshId: string, startedAt: real,
    observe: Answer<Observation>, contextFault: Option<Exception>, strategyFault: Option<Exception>,
    planInputFault: Option<Exception>, planFault: Option<Exception>, reply: Answer<Reply>,
    serverTime: real, decidedAt: real, reviewFault: Fault, executeFault: Fault, terminal: TerminalScript,
    verifyFault: Option<Exception>, memoryFault: Option<Exception>, finishedAt: real)

  /**
    * What a memory facade is given to write. Each offer has its own handler: a facade that raises changes nothing
    * else.
    */
  datatype WriteRequest =
    | SignalRow(signal: Signal) | ProposalRow(proposal: TradeProposal) | DecisionRow(decision: SupervisorDecision)
    | ExecutionRow(record: ExecutionRecord) | ObservationRow(observation: Observation)
    | OutcomeRow(symbol: string, status: ExecutionStatus)
  {
    /** The kind of row that the facade makes of it. */
    function Kind(): Memory.Kind {
      match this
      case SignalRow(_) => Memory.StrategySignal
      case ProposalRow(_) => Memory.TradeProposal
      case DecisionRow(_) => Memory.SupervisorDecision
      case ExecutionRow(_) => Memory.Execution
      case ObservationRow(_) => Memory.MarketObservation
      case OutcomeRow(_, _) => Memory.Outcome
    }
  }

  function Offered(on: bool, row: WriteRequest): seq<WriteRequest> {
    if on then [row] else []
  }

  /** The state that outlives a cycle. */
  datatype World = World(verdicts: seq<DecisionRecord>, exec: ExecState, dog: Option<Dog>)

  /** The `outcomes` list and the `state` dictionary of a running cycle, and the world around it. */
  datatype Frame = Frame(
    outcomes: seq<StageOutcome>, observation: Option<Observation>, signal: Option<Signal>,
    proposal: Option<TradeProposal>, decision: Option<SupervisorDecision>, record: Option<ExecutionRecord>,
    writes: seq<WriteRequest>, world: World)
  {
    function Offer(on: bool, row: WriteRequest): Frame {
      this.(writes := writes + Offered(on, row))
    }

    function Note(stage: Stage, status: StageStatus, summary: string): Frame {
      this.(outcomes := outcomes + [StageOutcome(stage, status, summary)])
    }
  }

  /** A stage either lets the cycle go on or raises past its own handler. */
  datatype Flow = Next(frame: Frame) | Abort(frame: Frame, exc: Exception) {
    predicate IsFailure() { Abort? }

    function PropagateFailure(): Flow
      requires Abort?
    { this }

    function Extract(): Frame
      requires Next?
    { frame }
  }

  const EMPTY_SUMMARY := Exception(ValueError, "blank")

  /** A stage's handler: records FAILED, except that a blank message makes the outcome itself raise. */
  function Handle(f: Frame, stage: Stage, exc: Exception): Flow {
    if Blank(exc.message) then Abort(f, EMPTY_SUMMARY) else Next(f.Note(stage, FAILED, exc.message))
  }

  function KeyError(key: string): Exception {
    Exception(OtherError, "'" + key + "'")
  }

  // ---- Specification of the stages ---------------------------------------------------------------

  function ObserveStage(s: CycleScript, f: Frame): Flow {
    match s.observe
    case Raised(exc) => Handle(f, OBSERVE, exc)
    case Returned(o) =>
      var dog := if f.world.dog.Some? then Some(NoteObservation(f.world.dog.value, o.observedAt)) else None;
      var g := f.(observation := Some(o), world := f.world.(dog := dog)).Note(OBSERVE, OK, "ok");
      if s.contextFault.Some? then Handle(g, OBSERVE, s.contextFault.value)
      else Next(g.Note(CONTEXT, OK, "ok"))
  }

  function PrimarySignal(cfg: AgentConfig, o: Observation): Signal {
    PrimaryNeedsBreak(cfg.strategies, o.symbol, o.candles);
    SelectPrimary(AllSignals(cfg.strategies, o.symbol, o.candles)).value
  }

  function StrategyStage(cfg: AgentConfig, s: CycleScript, f: Frame): Flow {
    if f.observation.None? then Handle(f, STRATEGY, KeyError("context"))
    else if s.strategyFault.Some? then Handle(f, STRATEGY, s.strategyFault.value)
    else Next(f.(signal := Some(PrimarySignal(cfg, f.observation.value)))
               .Offer(cfg.hasStrategyMemory, SignalRow(PrimarySignal(cfg, f.observation.value)))
               .Note(STRATEGY, OK, "ok").Note(MEMORY, OK, "ok"))
  }

  function InputFor(cfg: AgentConfig, o: Observation): PlannerInput {
    PrimaryNeedsBreak(cfg.strategies, o.symbol, o.candles);
    PlannerInput(o.symbol, PrimarySignal(cfg, o))
  }

  function ProposalFor(cfg: AgentConfig, o: Observation, reply: Answer<Reply>): TradeProposal {
    var input := InputFor(cfg, o);
    if cfg.hasPlanner then Plan(input, reply)
    else Hold(input, "no LLM", input.signal.strategy)
  }

  function PlanStage(cfg: AgentConfig, s: CycleScript, f: Frame): Flow {
    if f.observation.None? then Handle(f, PLAN, KeyError("observation"))
    else if s.planInputFault.Some? then Handle(f, PLAN, s.planInputFault.value)
    else if cfg.hasPlanner && s.planFault.Some? then Handle(f, PLAN, s.planFault.value)
    else
      var proposal := ProposalFor(cfg, f.observation.value, s.reply);
      Next(f.(proposal := Some(proposal))
            .Offer(cfg.hasTradeMemory, ProposalRow(proposal)).Note(PLAN, OK, "ok"))
  }

  /** The agent's default volume replaces a missing one before the review. */
  function WithVolume(cfg: AgentConfig, p: TradeProposal): (r: Answer<TradeProposal>)
    ensures r.Returned? ==> r.value.symbol == p.symbol
  {
    if p.IsActionable() && p.volume.None? then NewProposal(p.(volume := Some(cfg.defaultVolume))) else Returned(p)
  }

  function RiskContextFor(o: Observation, serverTime: real): RiskContext {
    var known := o.tick.Some? && o.point.Some? && o.point.value > 0.0;
    RiskContext(o.account, o.positions,
                if known then map[o.symbol := o.tick.value.Spread() / o.point.value] else map[],
                if known then map[o.symbol := o.point.value] else map[],
                serverTime, o.account.dayRealizedPnl, [])
  }

  function SuperviseStage(cfg: AgentConfig, s: CycleScript, f: Frame): Flow {
    if f.observation.None? then Handle(f, SUPERVISE, KeyError("observation"))
    else if f.proposal.None? then Handle(f, SUPERVISE, KeyError("proposal"))
    else
      var replaced := WithVolume(cfg, f.proposal.value);
      if replaced.Raised? then Handle(f, SUPERVISE, replaced.exc)
      else ReviewStage(cfg, s, f.(proposal := Some(replaced.value)), replaced.value, f.observation.value)
  }

  /** The review of the completed proposal `p`. */
  function ReviewStage(cfg: AgentConfig, s: CycleScript, f: Frame, p: TradeProposal, o: Observation): Flow {
    if s.reviewFault.Before? then Handle(f, SUPERVISE, s.reviewFault.exc) else
    var d := Decide(cfg.risk, f.world.verdicts, p, RiskContextFor(o, s.serverTime), s.decidedAt);
    var g := f.(world := f.world.(verdicts := Recorded(f.world.verdicts, d)));
    if s.reviewFault.After? then Handle(g, SUPERVISE, s.reviewFault.exc)
    else Next(g.(decision := Some(d))
               .Offer(cfg.hasTradeMemory, DecisionRow(d)).Note(SUPERVISE, OK, "ok"))
  }

  function ExecuteStage(cfg: AgentConfig, s: CycleScript, f: Frame): Flow {
    if f.decision.None? || !f.decision.value.approved then Next(f.Note(EXECUTE, SKIPPED, "skipped"))
    else if f.decision.value.proposal.action == HOLD then Next(f.Note(EXECUTE, SKIPPED, "skipped"))
    else if s.executeFault.Before? then Handle(f, EXECUTE, s.executeFault.exc)
    else
      var (exec, record) := Execute(cfg.exec, f.world.exec, f.decision.value,
                                    KeyOf(Some(s.cycleId), s.freshId), s.terminal);
      var g := f.(world := f.world.(exec := exec));
      if s.executeFault.After? then Handle(g, EXECUTE, s.executeFault.exc)
      else Next(g.(record := Some(record))
                 .Offer(cfg.hasTradeMemory, ExecutionRow(record)).Note(EXECUTE, OK, "ok"))
  }

  function VerifyStage(s: CycleScript, f: Frame): Flow {
    if f.record.None? then Next(f.Note(VERIFY, SKIPPED, "skipped"))
    else if s.verifyFault.Some? then Handle(f, VERIFY, s.verifyFault.value)
    else Next(f.Note(VERIFY, OK, "ok"))
  }

  /** The rows that MEMORY_UPDATE offers. */
  function FinalRows(cfg: AgentConfig, observation: Option<Observation>, record: Option<ExecutionRecord>)
    : seq<WriteRequest>
  {
    (if observation.Some? then Offered(cfg.hasShortTerm, ObservationRow(observation.value)) else [])
    + (if record.Some? then Offered(cfg.hasTradeMemory, OutcomeRow(record.value.symbol, record.value.status)) else [])
  }

  function MemoryUpdateStage(cfg: AgentConfig, s: CycleScript, f: Frame): Flow {
    var g := f.(writes := f.writes + FinalRows(cfg, f.observation, f.record));
    if s.memoryFault.Some? then Handle(g, MEMORY_UPDATE, s.memoryFault.value)
    else Next(g.Note(MEMORY_UPDATE, OK, "ok"))
  }

  /** The lifecycle; only a failed OBSERVE ends it early. */
  function Stages(cfg: AgentConfig, s: CycleScript, f: Frame): Flow {
    var observed :- ObserveStage(s, f);
    if AnyFailed(observed.outcomes) then Next(observed) else FromStrategy(cfg, s, observed)
  }

  function FromStrategy(cfg: AgentConfig, s: CycleScript, f: Frame): Flow {
    var analysed :- StrategyStage(cfg, s, f);
    FromPlan(cfg, s, analysed)
  }

  function FromPlan(cfg: AgentConfig, s: CycleScript, f: Frame): Flow {
    var planned :- PlanStage(cfg, s, f);
    FromSupervise(cfg, s, planned)
  }

  function FromSupervise(cfg: AgentConfig, s: CycleScript, f: Frame): Flow {
    var supervised :- SuperviseStage(cfg, s, f);
    FromExecute(cfg, s, supervised)
  }

  function FromExecute(cfg: AgentConfig, s: CycleScript, f: Frame): Flow {
    var executed :- ExecuteStage(cfg, s, f);
    FromVerify(cfg, s, executed)
  }

  function FromVerify(cfg: AgentConfig, s: CycleScript, f: Frame): Flow {
    var verified :- VerifyStage(s, f);
    MemoryUpdateStage(cfg, s, verified)
  }

  function ErrorText(exc: Exception): string {
    "!" + exc.message
  }

  function Finish(cfg: AgentConfig, world: World, cycle: AgentCycle, now: real): World {
    if world.dog.None? then world
    else if cycle.Ok() then world.(dog := Some(NoteSuccess(world.dog.value, "cycle")))
    else world.(dog := Some(NoteFailure(cfg.dog, world.dog.value, "cycle",
                                        if cycle.error != "" then cycle.error else "degraded", now)))
  }

  predicate Halted(cfg: AgentConfig, w: World, now: real) {
    w.dog.Some? && ShouldHalt(cfg.dog, w.dog.value, now)
  }

  function RefusedCycle(symbol: string, s: CycleScript): AgentCycle {
    AgentCycle(s.cycleId, symbol, [StageOutcome(OBSERVE, SKIPPED, "skipped")], "halt")
  }

  function StartFrame(w: World): Frame {
    Frame([], None, None, None, None, None, [], w)
  }

  function CycleOf(symbol: string, s: CycleScript, flow: Flow): AgentCycle {
    AgentCycle(s.cycleId, symbol, flow.frame.outcomes, if flow.Abort? then ErrorText(flow.exc) else "")
  }

  /** One whole cycle: total, whatever the collaborators do. */
  function Cycle(cfg: AgentConfig, w: World, symbol: string, s: CycleScript): (World, AgentCycle) {
    if Halted(cfg, w, s.startedAt) then (w, RefusedCycle(symbol, s)) else
      var flow := Stages(cfg, s, StartFrame(w));
      var cycle := CycleOf(symbol, s, flow);
      (Finish(cfg, flow.frame.world, cycle, s.finishedAt), cycle)
  }

  /** Which symbol is next after `done` cycles. */
  function Slot(done: nat, count: nat): (slot: nat)
    requires count > 0
    ensures slot < count
  {
    done % count
  }

  /**
    * The loop: one script per cycle until they are used up (that is when `stop()` is seen), `maxCycles` is
    * reached, or the watchdog halts. `done` cycles ran before.
    */
  function RunFrom(
    cfg: AgentConfig, w: World, symbols: seq<string>, maxCycles: Option<int>, done: nat, scripts: seq<CycleScript>)
    : (World, seq<AgentCycle>)
    decreases |scripts|
  {
    if Stopped(cfg, w, maxCycles, done, scripts) || symbols == [] then (w, []) else
      var (next, cycle) := Cycle(cfg, w, symbols[Slot(done, |symbols|)], scripts[0]);
      var (last, cycles) := RunFrom(cfg, next, symbols, maxCycles, done + 1, scripts[1..]);
      (last, [cycle] + cycles)
  }

  predicate Stopped(cfg: AgentConfig, w: World, maxCycles: Option<int>, done: nat, scripts: seq<CycleScript>) {
    || scripts == []
    || (maxCycles.Some? && done >= maxCycles.value)
    || Halted(cfg, w, scripts[0].startedAt)
  }

  /** The run `total` is the cycles that already finished, and then the run that starts in `w`. */
  predicate Remaining(
    cfg: AgentConfig, total: (World, seq<AgentCycle>), w: World, symbols: seq<string>, maxCycles: Option<int>,
    finished: seq<AgentCycle>, scripts: seq<CycleScript>)
  {
    var rest := RunFrom(cfg, w, symbols, maxCycles, |finished|, scripts);
    total.0 == rest.0 && total.1 == finished + rest.1
  }

  lemma RunHead(
    cfg: AgentConfig, w: World, symbols: seq<string>, maxCycles: Option<int>, done: nat, scripts: seq<CycleScript>)
    returns (next: World, cycle: AgentCycle, rest: (World, seq<AgentCycle>))
    requires symbols != [] && !Stopped(cfg, w, maxCycles, done, scripts)
    ensures (next, cycle) == Cycle(cfg, w, symbols[Slot(done, |symbols|)], scripts[0])
    ensures rest == RunFrom(cfg, next, symbols, maxCycles, done + 1, scripts[1..])
    ensures RunFrom(cfg, w, symbols, maxCycles, done, scripts) == (rest.0, [cycle] + rest.1)
  {
    var pair := Cycle(cfg, w, symbols[Slot(done, |symbols|)], scripts[0]);
    next, cycle := pair.0, pair.1;
    rest := RunFrom(cfg, next, symbols, maxCycles, done + 1, scripts[1..]);
  }

  lemma RegroupCycles(finished: seq<AgentCycle>, cycle: AgentCycle, rest: seq<AgentCycle>)
    ensures finished + ([cycle] + rest) == (finished + [cycle]) + rest
  {
  }

  /** One iteration of the loop. */
  lemma RunStep(
    cfg: AgentConfig, total: (World, seq<AgentCycle>), w: World, symbols: seq<string>, maxCycles: Option<int>,
    finished: seq<AgentCycle>, scripts: seq<CycleScript>) returns (next: World, cycle: AgentCycle)
    requires symbols != [] && !Stopped(cfg, w, maxCycles, |finished|, scripts)
    requires Remaining(cfg, total, w, symbols, maxCycles, finished, scripts)
    ensures (next, cycle) == Cycle(cfg, w, symbols[Slot(|finished|, |symbols|)], scripts[0])
    ensures Remaining(cfg, total, next, symbols, maxCycles, finished + [cycle], scripts[1..])
  {
    var rest;
    next, cycle, rest := RunHead(cfg, w, symbols, maxCycles, |finished|, scripts);
    assert |finished + [cycle]| == |finished| + 1;
    RegroupCycles(finished, cycle, rest.1);
  }

  lemma RunEnd(
    cfg: AgentConfig, total: (World, seq<AgentCycle>), w: World, symbols: seq<string>, maxCycles: Option<int>,
    finished: seq<AgentCycle>, scripts: seq<CycleScript>)
    requires Stopped(cfg, w, maxCycles, |finished|, scripts)
    requires Remaining(cfg, total, w, symbols, maxCycles, finished, scripts)
    ensures total == (w, finished)
  {
    assert finished + [] == finished;
  }

  // ---- The agent as it runs ----------------------------------------------------------------------

  /** The mutable `outcomes` and `state` that the stages of one cycle share. */
  class CycleState {
    var outcomes: seq<StageOutcome>
    var observation: Option<Observation>
    var signal: Option<Signal>
    var proposal: Option<TradeProposal>
    var decision: Option<SupervisorDecision>
    var record: Option<ExecutionRecord>
    var writes: seq<WriteRequest>

    constructor ()
      ensures outcomes == [] && observation == None && signal == None
      ensures proposal == None && decision == None && record == None && writes == []
    {
      outcomes, observation, signal, proposal, decision, record := [], None, None, None, None, None;
      writes := [];
    }

    /** Offers a row to a facade, if there is one; what the facade does with it stays inside its handler. */
    method Offer(on: bool, row: WriteRequest)
      modifies this`writes
      ensures writes == old(writes) + Offered(on, row)
    {
      if on {
        writes := writes + [row];
      }
    }

    method Append(stage: Stage, status: StageStatus, summary: string) returns (r: Answer<()>)
      modifies this`outcomes
      ensures Blank(summary) ==> r == Raised(EMPTY_SUMMARY) && outcomes == old(outcomes)
      ensures !Blank(summary) ==>
        r == Returned(()) && outcomes == old(outcomes) + [StageOutcome(stage, status, summary)]
    {
      if Blank(summary) { return Raised(EMPTY_SUMMARY); }
      outcomes := outcomes + [StageOutcome(stage, status, summary)];
      r := Returned(());
    }

    /** Records an outcome whose summary is known not to be blank. */
    method Note(stage: Stage, status: StageStatus, summary: string)
      requires !Blank(summary)
      modifies this`outcomes
      ensures outcomes == old(outcomes) + [StageOutcome(stage, status, summary)]
    {
      outcomes := outcomes + [StageOutcome(stage, status, summary)];
    }
  }

  class TradingAgent {
    const config: AgentConfig
    const supervisor: Supervisor
    const executor: MT5TradeExecutor
    const watchdog: Watchdog?
    var cycles: nat

    constructor (config: AgentConfig, supervisor: Supervisor, executor: MT5TradeExecutor, watchdog: Watchdog?)
      requires supervisor.config == config.risk && executor.config == config.exec
      requires watchdog != null ==> watchdog.config == config.dog
      ensures Valid() && cycles == 0
      ensures this.config == config && this.supervisor == supervisor
      ensures this.executor == executor && this.watchdog == watchdog
    {
      this.config, this.supervisor, this.executor, this.watchdog := config, supervisor, executor, watchdog;
      cycles := 0;
    }

    predicate Valid() {
      && supervisor.config == config.risk && executor.config == config.exec
      && (watchdog != null ==> watchdog.config == config.dog)
    }

    ghost function View(): World
      reads supervisor, executor, watchdog
    {
      World(supervisor.ledger, executor.View(), if watchdog == null then None else Some(watchdog.View()))
    }

    ghost function FrameOf(state: CycleState): Frame
      reads state, supervisor, executor, watchdog
    {
      Frame(state.outcomes, state.observation, state.signal, state.proposal, state.decision, state.record,
            state.writes, View())
    }

    ghost function FlowOf(state: CycleState, r: Answer<()>): Flow
      reads state, supervisor, executor, watchdog
    {
      if r.Returned? then Next(FrameOf(state)) else Abort(FrameOf(state), r.exc)
    }

    method Observe(s: CycleScript, state: CycleState) returns (r: Answer<()>)
      requires Valid()
      modifies state, watchdog
      ensures FlowOf(state, r) == ObserveStage(s, old(FrameOf(state)))
    {
      if s.observe.Raised? {
        r := state.Append(OBSERVE, FAILED, s.observe.exc.message);
        return;
      }
      state.observation := Some(s.observe.value);
      if watchdog != null {
        watchdog.Observe(s.observe.value.observedAt);
      }
      state.Note(OBSERVE, OK, "ok");
      if s.contextFault.Some? {
        r := state.Append(OBSERVE, FAILED, s.contextFault.value.message);
        return;
      }
      state.Note(CONTEXT, OK, "ok");
      r := Returned(());
    }

    method StrategyAndMemory(s: CycleScript, state: CycleState) returns (r: Answer<()>)
      requires Valid()
      modifies state
      ensures FlowOf(state, r) == StrategyStage(config, s, old(FrameOf(state)))
    {
      if state.observation.None? {
        r := state.Append(STRATEGY, FAILED, KeyError("context").message);
        return;
      }
      if s.strategyFault.Some? {
        r := state.Append(STRATEGY, FAILED, s.strategyFault.value.message);
        return;
      }
      var o := state.observation.value;
      var signals := AnalyzeAll(config.strategies, o.symbol, o.candles);
      var primary := SelectPrimary(signals).value;
      state.signal := Some(primary);
      state.Offer(config.hasStrategyMemory, SignalRow(primary));
      state.Note(STRATEGY, OK, "ok");
      state.Note(MEMORY, OK, "ok");
      r := Returned(());
    }

    method PlanTrade(s: CycleScript, state: CycleState) returns (r: Answer<()>)
      requires Valid()
      modifies state
      ensures FlowOf(state, r) == PlanStage(config, s, old(FrameOf(state)))
    {
      if state.observation.None? {
        r := state.Append(PLAN, FAILED, KeyError("observation").message);
        return;
      }
      var made := Propose(s, state.observation.value);
      if made.Raised? {
        r := state.Append(PLAN, FAILED, made.exc.message);
        return;
      }
      state.proposal := Some(made.value);
      state.Offer(config.hasTradeMemory, ProposalRow(made.value));
      state.Note(PLAN, OK, "ok");
      r := Returned(());
    }

    /** What PLAN's handler guards: building the planner's input and asking it, or holding without one. */
    method Propose(s: CycleScript, o: Observation) returns (r: Answer<TradeProposal>)
      ensures r.Returned? <==> s.planInputFault.None? && (config.hasPlanner ==> s.planFault.None?)
      ensures r.Returned? ==> r.value == ProposalFor(config, o, s.reply)
      ensures r.Raised? ==> Some(r.exc) == if s.planInputFault.Some? then s.planInputFault else s.planFault
    {
      if s.planInputFault.Some? { return Raised(s.planInputFault.value); }
      var signals := AnalyzeAll(config.strategies, o.symbol, o.candles);
      PrimaryNeedsBreak(config.strategies, o.symbol, o.candles);
      var input: PlannerInput := PlannerInput(o.symbol, SelectPrimary(signals).value);
      if !config.hasPlanner { return Returned(Hold(input, "no LLM", input.signal.strategy)); }
      if s.planFault.Some? { return Raised(s.planFault.value); }
      r := Returned(Plan(input, s.reply));
    }

    method ResolveVolume(p: TradeProposal) returns (r: Answer<TradeProposal>)
      ensures r == WithVolume(config, p)
      ensures r.Raised? <==> p.IsActionable() && p.volume.None? && config.defaultVolume <= 0.0
      ensures r.Returned? ==> r.value == p.(volume := r.value.volume)
      ensures r.Returned? && p.IsActionable() ==>
                r.value.volume == Some(if p.volume.Some? then p.volume.value else config.defaultVolume)
    {
      if !p.IsActionable() || p.volume.Some? { return Returned(p); }
      r := NewProposal(p.(volume := Some(config.defaultVolume)));
    }

    method Supervise(s: CycleScript, state: CycleState) returns (r: Answer<()>)
      requires Valid()
      modifies state, supervisor
      ensures FlowOf(state, r) == SuperviseStage(config, s, old(FrameOf(state)))
    {
      if state.observation.None? {
        r := state.Append(SUPERVISE, FAILED, KeyError("observation").message);
        return;
      }
      if state.proposal.None? {
        r := state.Append(SUPERVISE, FAILED, KeyError("proposal").message);
        return;
      }
      var replaced := ResolveVolume(state.proposal.value);
      if replaced.Raised? {
        r := state.Append(SUPERVISE, FAILED, replaced.exc.message);
        return;
      }
      state.proposal := Some(replaced.value);
      r := Review(s, state, replaced.value, state.observation.value);
    }

    method Review(s: CycleScript, state: CycleState, proposal: TradeProposal, o: Observation)
      returns (r: Answer<()>)
      requires Valid()
      modifies state, supervisor
      ensures FlowOf(state, r) == ReviewStage(config, s, old(FrameOf(state)), proposal, o)
    {
      if s.reviewFault.Before? {
        r := state.Append(SUPERVISE, FAILED, s.reviewFault.exc.message);
        return;
      }
      var decision := supervisor.Review(proposal, RiskContextFor(o, s.serverTime), s.decidedAt);
      if s.reviewFault.After? {
        r := state.Append(SUPERVISE, FAILED, s.reviewFault.exc.message);
        return;
      }
      state.decision := Some(decision);
      state.Offer(config.hasTradeMemory, DecisionRow(decision));
      state.Note(SUPERVISE, OK, "ok");
      r := Returned(());
    }

    method ExecuteDecision(s: CycleScript, state: CycleState) returns (r: Answer<()>)
      requires Valid()
      modifies state, executor, executor.terminal
      ensures FlowOf(state, r) == ExecuteStage(config, s, old(FrameOf(state)))
    {
      if state.decision.None? || !state.decision.value.approved {
        state.Note(EXECUTE, SKIPPED, "skipped");
        return Returned(());
      }
      var decision := state.decision.value;
      if decision.proposal.action == HOLD {
        state.Note(EXECUTE, SKIPPED, "skipped");
        return Returned(());
      }
      r := ExecuteApproved(s, state, decision);
    }

    method ExecuteApproved(s: CycleScript, state: CycleState, decision: SupervisorDecision)
      returns (r: Answer<()>)
      requires Valid() && state.decision == Some(decision) && decision.approved && decision.proposal.action != HOLD
      modifies state, executor, executor.terminal
      ensures FlowOf(state, r) == ExecuteStage(config, s, old(FrameOf(state)))
    {
      var result := Submit(s, decision);
      if result.Raised? {
        r := state.Append(EXECUTE, FAILED, result.exc.message);
        return;
      }
      state.record := Some(result.value);
      state.Offer(config.hasTradeMemory, ExecutionRow(result.value));
      state.Note(EXECUTE, OK, "ok");
      r := Returned(());
    }

    /** What EXECUTE's handler guards: the call of the executor. */
    method Submit(s: CycleScript, decision: SupervisorDecision) returns (r: Answer<ExecutionRecord>)
      requires Valid()
      modifies executor, executor.terminal
      ensures var (exec, record) := Execute(config.exec, old(executor.View()), decision,
                                            KeyOf(Some(s.cycleId), s.freshId), s.terminal);
        && executor.View() == (if s.executeFault.Before? then old(executor.View()) else exec)
        && r == (if s.executeFault.NoFault? then Returned(record) else Raised(s.executeFault.exc))
    {
      if s.executeFault.Before? { return Raised(s.executeFault.exc); }
      var record := executor.ExecuteOrder(decision, Some(s.cycleId), s.freshId, s.terminal);
      r := if s.executeFault.After? then Raised(s.executeFault.exc) else Returned(record);
    }

    method Verify(s: CycleScript, state: CycleState) returns (r: Answer<()>)
      modifies state
      ensures FlowOf(state, r) == VerifyStage(s, old(FrameOf(state)))
    {
      if state.record.None? {
        state.Note(VERIFY, SKIPPED, "skipped");
        r := Returned(());
      } else if s.verifyFault.Some? {
        r := state.Append(VERIFY, FAILED, s.verifyFault.value.message);
      } else {
        state.Note(VERIFY, OK, "ok");
        r := Returned(());
      }
    }

    method UpdateMemory(s: CycleScript, state: CycleState) returns (r: Answer<()>)
      modifies state
      ensures FlowOf(state, r) == MemoryUpdateStage(config, s, old(FrameOf(state)))
    {
      if state.observation.Some? {
        state.Offer(config.hasShortTerm, ObservationRow(state.observation.value));
      }
      if state.record.Some? {
        state.Offer(config.hasTradeMemory, OutcomeRow(state.record.value.symbol, state.record.value.status));
      }
      assert FrameOf(state) == old(FrameOf(state)).(
          writes := old(state.writes) + FinalRows(config, state.observation, state.record));
      if s.memoryFault.Some? {
        r := state.Append(MEMORY_UPDATE, FAILED, s.memoryFault.value.message);
      } else {
        state.Note(MEMORY_UPDATE, OK, "ok");
        r := Returned(());
      }
    }

    method RunStages(s: CycleScript, state: CycleState) returns (r: Answer<()>)
      requires Valid()
      modifies state, supervisor, executor, executor.terminal, watchdog
      ensures FlowOf(state, r) == Stages(config, s, old(FrameOf(state)))
    {
      var _ :- Observe(s, state);
      if exists i | 0 <= i < |state.outcomes| :: state.outcomes[i].status == FAILED { return Returned(()); }
      var _ :- StrategyAndMemory(s, state);
      var _ :- PlanTrade(s, state);
      var _ :- Supervise(s, state);
      var _ :- ExecuteDecision(s, state);
      var _ :- Verify(s, state);
      r := UpdateMemory(s, state);
    }

    /** Never raises: what escapes the stages becomes the cycle's error. */
    method RunCycle(symbol: string, s: CycleScript) returns (cycle: AgentCycle)
      requires Valid()
      modifies supervisor, executor, executor.terminal, watchdog
      ensures (View(), cycle) == Cycle(config, old(View()), symbol, s)
    {
      var halt := Halts(s.startedAt);
      if halt { return RefusedCycle(symbol, s); }
      var state := new CycleState();
      var r := RunStages(s, state);
      var error := if r.Raised? then ErrorText(r.exc) else "";
      cycle := AgentCycle(s.cycleId, symbol, state.outcomes, error);
      if watchdog != null {
        if cycle.Ok() {
          watchdog.Success("cycle");
        } else {
          watchdog.Failure("cycle", if cycle.error != "" then cycle.error else "degraded", s.finishedAt);
        }
      }
    }

    method Halts(now: real) returns (halt: bool)
      requires Valid()
      ensures halt == Halted(config, View(), now)
    {
      halt := false;
      if watchdog != null {
        halt := watchdog.Halts(now);
      }
    }

    /** Round-robin over the symbols; with no symbols the first cycle raises a division by zero. */
    method Run(symbols: seq<string>, maxCycles: Option<int>, scripts: seq<CycleScript>)
      returns (result: Answer<seq<AgentCycle>>)
      requires Valid()
      modifies this`cycles, supervisor, executor, executor.terminal, watchdog
      ensures result.Raised? <==> symbols == [] && !Stopped(config, old(View()), maxCycles, 0, scripts)
      ensures result.Raised? ==> View() == old(View()) && cycles == old(cycles)
      ensures result.Returned? ==>
        && (View(), result.value) == RunFrom(config, old(View()), symbols, maxCycles, 0, scripts)
        && cycles == old(cycles) + |result.value|
    {
      if symbols == [] {
        // no cycle can start: the loop ends before its first cycle, or picking a symbol raises
        var halt := false;
        if |scripts| > 0 {
          halt := Halts(scripts[0].startedAt);
        }
        if |scripts| == 0 || (maxCycles.Some? && 0 >= maxCycles.value) || halt { return Returned([]); }
        return Raised(Exception(OtherError, "modulo"));
      }
      var finished := RunLoop(symbols, maxCycles, scripts);
      result := Returned(finished);
    }

    method RunLoop(symbols: seq<string>, maxCycles: Option<int>, scripts: seq<CycleScript>)
      returns (finished: seq<AgentCycle>)
      requires Valid() && symbols != []
      modifies this`cycles, supervisor, executor, executor.terminal, watchdog
      ensures (View(), finished) == RunFrom(config, old(View()), symbols, maxCycles, 0, scripts)
      ensures cycles == old(cycles) + |finished|
    {
      finished := [];
      var index := 0;
      ghost var left := scripts;
      ghost var total := RunFrom(config, View(), symbols, maxCycles, 0, scripts);
      assert finished + total.1 == total.1;
      while true
        invariant index == |finished| <= |scripts| && cycles == old(cycles) + index
        invariant left == scripts[index..]
        invariant Remaining(config, total, View(), symbols, maxCycles, finished, left)
        decreases |scripts| - index
      {
        if index == |scripts| || (maxCycles.Some? && |finished| >= maxCycles.value) { break; }
        var halt := Halts(scripts[index].startedAt);
        if halt { break; }
        finished := RunOne(symbols, maxCycles, finished, scripts[index], total, left);
        left := left[1..];
        index := index + 1;
      }
      RunEnd(config, total, View(), symbols, maxCycles, finished, left);
    }

    /** One iteration of the loop, for the script that is next among those `left`. */
    method RunOne(
      symbols: seq<string>, maxCycles: Option<int>, finished: seq<AgentCycle>, s: CycleScript,
      ghost total: (World, seq<AgentCycle>), ghost left: seq<CycleScript>)
      returns (longer: seq<AgentCycle>)
      requires Valid() && symbols != [] && left != [] && s == left[0]
      requires !Stopped(config, View(), maxCycles, |finished|, left)
      requires Remaining(config, total, View(), symbols, maxCycles, finished, left)
      modifies this`cycles, supervisor, executor, executor.terminal, watchdog
      ensures |longer| == |finished| + 1 && finished <= longer && cycles == old(cycles) + 1
      ensures longer[|finished|] == Cycle(config, old(View()), symbols[Slot(|finished|, |symbols|)], s).1
      ensures Remaining(config, total, View(), symbols, maxCycles, longer, left[1..])
    {
      ghost var next, made := RunStep(config, total, View(), symbols, maxCycles, finished, left);
      var cycle := RunCycle(symbols[Slot(|finished|, |symbols|)], s);
      assert (View(), cycle) == (next, made);
      longer := finished + [cycle];
      cycles := cycles + 1;
    }
  }
}
