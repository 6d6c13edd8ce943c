/** How a cycle is recorded: the trace grammar, when it is ok, and when a failure escapes its stage. */
module CycleTrace {
  import opened Common
  import opened Planner
  import opened SupervisorBoundary
  import opened WatchdogLatch
  import opened Executor
  import opened Agent
  import opened CycleLaws

  // ---- Failures ----------------------------------------------------------------------------------

  predicate FailedAt(stages: seq<StageOutcome>, stage: Stage) {
    exists i | 0 <= i < |stages| :: stages[i].stage == stage && stages[i].status == FAILED
  }

  /** No FAILED outcome among the stages that lead to an order. */
  predicate Clean(f: Frame) {
    forall i | 0 <= i < |f.outcomes| && f.outcomes[i].status == FAILED ::
      f.outcomes[i].stage !in {OBSERVE, PLAN, SUPERVISE}
  }

  lemma ExecutionStaysClean(cfg: AgentConfig, s: CycleScript, f: Frame)
    requires Clean(f)
    ensures Clean(FromExecute(cfg, s, f).frame)
  {
    var r := ExecuteStage(cfg, s, f);
    assert r.frame.outcomes == f.outcomes || AddsClean(f.outcomes, r.frame.outcomes);
    TailStaysClean(cfg, s, r.frame);
  }

  lemma TailStaysClean(cfg: AgentConfig, s: CycleScript, f: Frame)
    requires Clean(f)
    ensures Clean(FromVerify(cfg, s, f).frame)
  {
    var r := VerifyStage(s, f);
    assert r.frame.outcomes == f.outcomes || AddsClean(f.outcomes, r.frame.outcomes);
    MemoryStaysClean(cfg, s, r.frame);
  }

  lemma MemoryStaysClean(cfg: AgentConfig, s: CycleScript, f: Frame)
    requires Clean(f)
    ensures Clean(MemoryUpdateStage(cfg, s, f).frame)
  {
    var r := MemoryUpdateStage(cfg, s, f);
    assert r.frame.outcomes == f.outcomes || AddsClean(f.outcomes, r.frame.outcomes);
  }

  /** One more outcome, of a stage after the decision. */
  predicate AddsClean(before: seq<StageOutcome>, after: seq<StageOutcome>) {
    && |after| == |before| + 1 && after[..|before|] == before
    && after[|before|].stage in {EXECUTE, VERIFY, MEMORY_UPDATE}
  }

  lemma SupervisionStaysClean(cfg: AgentConfig, s: CycleScript, f: Frame)
    requires Clean(f) && SuperviseStage(cfg, s, f).frame.decision.Some? && f.decision.None?
    ensures Clean(FromSupervise(cfg, s, f).frame)
  {
    var r := SuperviseStage(cfg, s, f);
    assert r.frame.outcomes == f.outcomes + [StageOutcome(SUPERVISE, OK, "ok")];
    ExecutionStaysClean(cfg, s, r.frame);
  }

  lemma PlanStaysClean(cfg: AgentConfig, s: CycleScript, f: Frame)
    requires Clean(f) && PlanStage(cfg, s, f).frame.proposal.Some? && f.proposal.None?
    ensures PlanStage(cfg, s, f).Next? && Clean(PlanStage(cfg, s, f).frame)
  {
  }

  lemma StartIsClean(cfg: AgentConfig, w: World, s: CycleScript)
    requires s.observe.Returned? && s.contextFault.None?
    ensures var f1 := ObserveStage(s, StartFrame(w)).frame;
      Clean(f1) && Clean(StrategyStage(cfg, s, f1).frame)
  {
  }

  /** A failed OBSERVE, PLAN or SUPERVISE never reaches the executor. */
  lemma FailureBlocksExecution(cfg: AgentConfig, w: World, symbol: string, s: CycleScript)
    requires var stages := Cycle(cfg, w, symbol, s).1.stages;
      FailedAt(stages, OBSERVE) || FailedAt(stages, PLAN) || FailedAt(stages, SUPERVISE)
    ensures Cycle(cfg, w, symbol, s).0.exec == w.exec
  {
    CycleEffects(cfg, w, symbol, s);
    if Executed(cfg, w, s) {
      ExecutedIsClean(cfg, w, s);
    }
  }

  lemma ExecutedIsClean(cfg: AgentConfig, w: World, s: CycleScript)
    requires Executed(cfg, w, s)
    ensures Clean(Stages(cfg, s, StartFrame(w)).frame)
  {
    ObserveEffects(w, s);
    StartIsClean(cfg, w, s);
    var f1 := ObserveStage(s, StartFrame(w)).frame;
    var r2 := StrategyStage(cfg, s, f1);
    assert r2.frame == f1.(outcomes := r2.frame.outcomes, signal := r2.frame.signal, writes := r2.frame.writes);
    PlanEffects(cfg, s, r2.frame);
    PlanStaysClean(cfg, s, r2.frame);
    var f3 := PlanStage(cfg, s, r2.frame).frame;
    SuperviseEffects(cfg, s, f3);
    SupervisionStaysClean(cfg, s, f3);
    assert r2.Next? && FromStrategy(cfg, s, f1) == FromPlan(cfg, s, r2.frame) == FromSupervise(cfg, s, f3);
  }

  // ---- When is a cycle ok, and when does it record the whole lifecycle? --------------------------

  const LIFECYCLE := [OBSERVE, CONTEXT, STRATEGY, MEMORY, PLAN, SUPERVISE, EXECUTE, VERIFY, MEMORY_UPDATE]

  function Names(outcomes: seq<StageOutcome>): (names: seq<Stage>)
    ensures |names| == |outcomes|
  {
    seq(|outcomes|, i requires 0 <= i < |outcomes| => outcomes[i].stage)
  }

  /** The stages went through and none was recorded FAILED. */
  predicate Fine(flow: Flow) {
    flow.Next? && !AnyFailed(flow.frame.outcomes)
  }

  lemma FailedExtends(f: Frame, stage: Stage, status: StageStatus, summary: string)
    ensures AnyFailed(f.Note(stage, status, summary).outcomes) <==> AnyFailed(f.outcomes) || status == FAILED
    ensures Names(f.Note(stage, status, summary).outcomes) == Names(f.outcomes) + [stage]
  {
    var g := f.Note(stage, status, summary);
    assert g.outcomes[|f.outcomes|].status == status;
    assert forall i | 0 <= i < |f.outcomes| :: g.outcomes[i] == f.outcomes[i];
  }

  /** From `f` on the stages are recorded one by one; an abort cuts them short, and a failure stays on record. */
  predicate Adds(f: Frame, r: Flow, stages: seq<Stage>) {
    && (if r.Next? then Names(r.frame.outcomes) == Names(f.outcomes) + stages
        else Names(r.frame.outcomes) < Names(f.outcomes) + stages)
    && Names(f.outcomes) <= Names(r.frame.outcomes)
    && (AnyFailed(f.outcomes) ==> AnyFailed(r.frame.outcomes))
  }

  predicate AddsOne(f: Frame, r: Flow, stage: Stage) {
    Adds(f, r, [stage]) && (r.Abort? ==> r.frame.outcomes == f.outcomes)
  }

  lemma AbortAdds(f: Frame, r: Flow, first: Stage, rest: seq<Stage>)
    requires AddsOne(f, r, first) && r.Abort?
    ensures Adds(f, r, [first] + rest)
  {
  }

  lemma AddsThen(f: Frame, r: Flow, first: Stage, last: Flow, rest: seq<Stage>)
    requires AddsOne(f, r, first) && r.Next? && Adds(r.frame, last, rest)
    ensures Adds(f, last, [first] + rest)
  {
  }

  lemma HandleAddsOne(f: Frame, stage: Stage, exc: Exception)
    ensures AddsOne(f, Handle(f, stage, exc), stage) && !Fine(Handle(f, stage, exc))
  {
    FailedExtends(f, stage, FAILED, exc.message);
  }

  lemma VerifyOutcome(s: CycleScript, f: Frame)
    ensures AddsOne(f, VerifyStage(s, f), VERIFY)
    ensures Fine(VerifyStage(s, f)) <==> !AnyFailed(f.outcomes) && (f.record.Some? ==> s.verifyFault.None?)
  {
    if f.record.Some? && s.verifyFault.Some? {
      HandleAddsOne(f, VERIFY, s.verifyFault.value);
    } else {
      FailedExtends(f, VERIFY, SKIPPED, "skipped");
      FailedExtends(f, VERIFY, OK, "ok");
    }
  }

  lemma MemoryOutcome(cfg: AgentConfig, s: CycleScript, f: Frame)
    ensures AddsOne(f, MemoryUpdateStage(cfg, s, f), MEMORY_UPDATE)
    ensures Fine(MemoryUpdateStage(cfg, s, f)) <==> !AnyFailed(f.outcomes) && s.memoryFault.None?
  {
    if s.memoryFault.Some? {
      HandleAddsOne(f, MEMORY_UPDATE, s.memoryFault.value);
    } else {
      FailedExtends(f, MEMORY_UPDATE, OK, "ok");
    }
  }

  predicate WantsOrder(f: Frame) {
    f.decision.Some? && f.decision.value.approved && f.decision.value.proposal.action != HOLD
  }

  lemma ExecuteOutcome(cfg: AgentConfig, s: CycleScript, f: Frame)
    requires f.record.None?
    ensures var r := ExecuteStage(cfg, s, f);
      && AddsOne(f, r, EXECUTE)
      && (Fine(r) <==> !AnyFailed(f.outcomes) && (WantsOrder(f) ==> s.executeFault.NoFault?))
      && (Fine(r) ==> (r.frame.record.Some? <==> WantsOrder(f)))
  {
    if !WantsOrder(f) {
      FailedExtends(f, EXECUTE, SKIPPED, "skipped");
    } else if s.executeFault.Before? {
      HandleAddsOne(f, EXECUTE, s.executeFault.exc);
    } else {
      var exec := ExecAfter(cfg, f.world.exec, f.decision.value, s);
      var g := f.(world := f.world.(exec := exec));
      if s.executeFault.After? {
        HandleAddsOne(g, EXECUTE, s.executeFault.exc);
      } else {
        FailedExtends(g, EXECUTE, OK, "ok");
      }
    }
  }

  lemma SuperviseOutcome(cfg: AgentConfig, s: CycleScript, f: Frame)
    requires f.decision.None? && f.record.None?
    ensures var r := SuperviseStage(cfg, s, f);
      && AddsOne(f, r, SUPERVISE) && r.frame.record.None?
      && (Fine(r) <==> !AnyFailed(f.outcomes) && f.observation.Some? && f.proposal.Some?
                       && WithVolume(cfg, f.proposal.value).Returned? && s.reviewFault.NoFault?)
  {
    var r := SuperviseStage(cfg, s, f);
    if f.observation.None? {
      HandleAddsOne(f, SUPERVISE, KeyError("observation"));
    } else if f.proposal.None? {
      HandleAddsOne(f, SUPERVISE, KeyError("proposal"));
    } else if WithVolume(cfg, f.proposal.value).Raised? {
      HandleAddsOne(f, SUPERVISE, WithVolume(cfg, f.proposal.value).exc);
    } else if !s.reviewFault.NoFault? {
      var g := f.(proposal := r.frame.proposal, world := r.frame.world);
      HandleAddsOne(g, SUPERVISE, s.reviewFault.exc);
    } else {
      FailedExtends(f.(proposal := r.frame.proposal, world := r.frame.world, decision := r.frame.decision),
                    SUPERVISE, OK, "ok");
    }
  }

  lemma PlanOutcome(cfg: AgentConfig, s: CycleScript, f: Frame)
    requires f.observation.Some? && f.record.None? && f.decision.None?
    ensures var r := PlanStage(cfg, s, f);
      && AddsOne(f, r, PLAN) && r.frame.record.None? && r.frame.decision.None?
      && (Fine(r) <==> !AnyFailed(f.outcomes) && s.planInputFault.None? && (cfg.hasPlanner ==> s.planFault.None?))
  {
    if s.planInputFault.Some? {
      HandleAddsOne(f, PLAN, s.planInputFault.value);
    } else if cfg.hasPlanner && s.planFault.Some? {
      HandleAddsOne(f, PLAN, s.planFault.value);
    } else {
      FailedExtends(f.(proposal := PlanStage(cfg, s, f).frame.proposal), PLAN, OK, "ok");
    }
  }

  lemma FromVerifyOutcome(cfg: AgentConfig, s: CycleScript, f: Frame)
    ensures Adds(f, FromVerify(cfg, s, f), [VERIFY] + [MEMORY_UPDATE])
    ensures Fine(FromVerify(cfg, s, f)) <==>
      !AnyFailed(f.outcomes) && (f.record.Some? ==> s.verifyFault.None?) && s.memoryFault.None?
  {
    var r := VerifyStage(s, f);
    VerifyOutcome(s, f);
    if r.Next? {
      MemoryOutcome(cfg, s, r.frame);
      AddsThen(f, r, VERIFY, MemoryUpdateStage(cfg, s, r.frame), [MEMORY_UPDATE]);
    } else {
      AbortAdds(f, r, VERIFY, [MEMORY_UPDATE]);
    }
  }

  const AFTER_EXECUTE := [VERIFY] + [MEMORY_UPDATE]

  lemma FromExecuteOutcome(cfg: AgentConfig, s: CycleScript, f: Frame)
    requires f.record.None?
    ensures Adds(f, FromExecute(cfg, s, f), [EXECUTE] + AFTER_EXECUTE)
    ensures Fine(FromExecute(cfg, s, f)) <==>
      && !AnyFailed(f.outcomes) && s.memoryFault.None?
      && (WantsOrder(f) ==> s.executeFault.NoFault? && s.verifyFault.None?)
  {
    var r := ExecuteStage(cfg, s, f);
    ExecuteOutcome(cfg, s, f);
    if r.Next? {
      FromVerifyOutcome(cfg, s, r.frame);
      AddsThen(f, r, EXECUTE, FromVerify(cfg, s, r.frame), AFTER_EXECUTE);
    } else {
      AbortAdds(f, r, EXECUTE, AFTER_EXECUTE);
    }
  }

  const AFTER_SUPERVISE := [EXECUTE] + AFTER_EXECUTE

  lemma FromSuperviseOutcome(cfg: AgentConfig, s: CycleScript, f: Frame)
    requires f.observation.Some? && f.decision.None? && f.record.None?
    ensures Adds(f, FromSupervise(cfg, s, f), [SUPERVISE] + AFTER_SUPERVISE)
    ensures Fine(FromSupervise(cfg, s, f)) <==>
      && !AnyFailed(f.outcomes) && f.proposal.Some? && WithVolume(cfg, f.proposal.value).Returned?
      && s.reviewFault.NoFault? && s.memoryFault.None?
      && (var d := Decide(cfg.risk, f.world.verdicts, WithVolume(cfg, f.proposal.value).value,
                          RiskContextFor(f.observation.value, s.serverTime), s.decidedAt);
          d.approved && d.proposal.action != HOLD ==> s.executeFault.NoFault? && s.verifyFault.None?)
  {
    var r := SuperviseStage(cfg, s, f);
    SuperviseOutcome(cfg, s, f);
    if f.proposal.Some? {
      SuperviseEffects(cfg, s, f);
    }
    if r.Next? {
      FromExecuteOutcome(cfg, s, r.frame);
      AddsThen(f, r, SUPERVISE, FromExecute(cfg, s, r.frame), AFTER_SUPERVISE);
    } else {
      AbortAdds(f, r, SUPERVISE, AFTER_SUPERVISE);
    }
  }

  const AFTER_PLAN := [SUPERVISE] + AFTER_SUPERVISE

  /** From PLAN on: five more outcomes unless the cycle aborts, and fine exactly when nothing met fails. */
  lemma FromPlanOutcome(cfg: AgentConfig, w: World, s: CycleScript, f: Frame)
    requires s.observe.Returned? && f.observation == Some(s.observe.value)
    requires f.proposal.None? && f.record.None? && f.decision.None? && f.world.verdicts == w.verdicts
    ensures Adds(f, FromPlan(cfg, s, f), [PLAN] + AFTER_PLAN)
    ensures Fine(FromPlan(cfg, s, f)) <==> !AnyFailed(f.outcomes) && LateFaultFree(cfg, w, s)
  {
    var r := PlanStage(cfg, s, f);
    PlanOutcome(cfg, s, f);
    PlanEffects(cfg, s, f);
    if r.Next? {
      FromSuperviseOutcome(cfg, s, r.frame);
      AddsThen(f, r, PLAN, FromSupervise(cfg, s, r.frame), AFTER_PLAN);
    } else {
      AbortAdds(f, r, PLAN, AFTER_PLAN);
    }
  }

  /** Nothing that the cycle meets from PLAN on fails. */
  predicate LateFaultFree(cfg: AgentConfig, w: World, s: CycleScript)
    requires s.observe.Returned?
  {
    && s.planInputFault.None? && (cfg.hasPlanner ==> s.planFault.None?)
    && FinalProposal(cfg, s.observe.value, s.reply).Returned? && s.reviewFault.NoFault?
    && (DecisionOf(cfg, w, s).approved && DecisionOf(cfg, w, s).proposal.action != HOLD ==>
          s.executeFault.NoFault? && s.verifyFault.None?)
    && s.memoryFault.None?
  }

  /** The first three calls of the lifecycle succeed. */
  predicate EarlyFaultFree(s: CycleScript) {
    s.observe.Returned? && s.contextFault.None? && s.strategyFault.None?
  }

  lemma StrategyOutcome(cfg: AgentConfig, s: CycleScript, f: Frame)
    requires f.observation.Some? && !AnyFailed(f.outcomes)
    ensures var r := StrategyStage(cfg, s, f);
      && r.frame == f.(outcomes := r.frame.outcomes, signal := r.frame.signal, writes := r.frame.writes)
      && (if s.strategyFault.None? then Fine(r) && Names(r.frame.outcomes) == Names(f.outcomes) + [STRATEGY, MEMORY]
          else AddsOne(f, r, STRATEGY) && !Fine(r) && (r.Next? ==> AnyFailed(r.frame.outcomes)))
  {
    if s.strategyFault.Some? {
      HandleAddsOne(f, STRATEGY, s.strategyFault.value);
    } else {
      var g := f.(signal := StrategyStage(cfg, s, f).frame.signal);
      FailedExtends(g, STRATEGY, OK, "ok");
      FailedExtends(g.Note(STRATEGY, OK, "ok"), MEMORY, OK, "ok");
    }
  }

  const LATE_STAGES := [PLAN] + AFTER_PLAN

  /** Every way a cycle that was not refused can be recorded. */
  predicate Grammatical(s: CycleScript, r: Flow) {
    var names := Names(r.frame.outcomes);
    if s.observe.Raised? || s.contextFault.Some? then names <= [OBSERVE] || names == [OBSERVE, OBSERVE]
    else if s.strategyFault.Some? then
      names == [OBSERVE, CONTEXT]
      || (&& [OBSERVE, CONTEXT, STRATEGY] <= names && names <= [OBSERVE, CONTEXT, STRATEGY] + LATE_STAGES
          && names != LIFECYCLE)
    else [OBSERVE, CONTEXT, STRATEGY, MEMORY] <= names && names <= LIFECYCLE && (r.Next? ==> names == LIFECYCLE)
  }

  lemma StagesOutcome(cfg: AgentConfig, w: World, s: CycleScript)
    ensures var r := Stages(cfg, s, StartFrame(w));
      && (Fine(r) <==> EarlyFaultFree(s) && LateFaultFree(cfg, w, s))
      && Grammatical(s, r)
      && (r.Abort? ==> Names(r.frame.outcomes) != LIFECYCLE)
  {
    ObserveEffects(w, s);
    var r1 := ObserveStage(s, StartFrame(w));
    if s.observe.Returned? && s.contextFault.None? {
      assert Names(r1.frame.outcomes) == [OBSERVE, CONTEXT];
      AfterContext(cfg, w, s, r1.frame);
      assert Stages(cfg, s, StartFrame(w)) == FromStrategy(cfg, s, r1.frame);
    } else {
      assert Stages(cfg, s, StartFrame(w)).frame == r1.frame && |r1.frame.outcomes| <= 2;
      var names := Names(r1.frame.outcomes);
      assert names == [] || names == [OBSERVE] || names == [OBSERVE, OBSERVE];
    }
  }

  lemma AfterContext(cfg: AgentConfig, w: World, s: CycleScript, f: Frame)
    requires s.observe.Returned? && s.contextFault.None? && f.observation == Some(s.observe.value)
    requires f.proposal.None? && f.record.None? && f.decision.None? && f.world.verdicts == w.verdicts
    requires !AnyFailed(f.outcomes) && Names(f.outcomes) == [OBSERVE, CONTEXT]
    ensures var r := FromStrategy(cfg, s, f);
      && (Fine(r) <==> EarlyFaultFree(s) && LateFaultFree(cfg, w, s))
      && Grammatical(s, r)
      && (r.Abort? ==> Names(r.frame.outcomes) != LIFECYCLE)
  {
    StrategyOutcome(cfg, s, f);
    var r2 := StrategyStage(cfg, s, f);
    if r2.Next? {
      FromPlanOutcome(cfg, w, s, r2.frame);
      LateStages();
    }
  }

  lemma LateStages()
    ensures LATE_STAGES == [PLAN, SUPERVISE, EXECUTE, VERIFY, MEMORY_UPDATE]
    ensures [OBSERVE, CONTEXT] + [STRATEGY, MEMORY] + LATE_STAGES == LIFECYCLE
    ensures |[OBSERVE, CONTEXT] + [STRATEGY] + LATE_STAGES| == 8 && |LIFECYCLE| == 9
    ensures [OBSERVE, CONTEXT] + [STRATEGY] == [OBSERVE, CONTEXT, STRATEGY]
    ensures [OBSERVE, CONTEXT] + [STRATEGY, MEMORY] == [OBSERVE, CONTEXT, STRATEGY, MEMORY]
  {
  }

  function Rank(stage: Stage): nat {
    match stage
    case OBSERVE => 0 case CONTEXT => 1 case STRATEGY => 2 case MEMORY => 3 case PLAN => 4
    case SUPERVISE => 5 case EXECUTE => 6 case VERIFY => 7 case MEMORY_UPDATE => 8
  }

  predicate Ordered(names: seq<Stage>) {
    forall i, j | 0 <= i < j < |names| :: Rank(names[i]) <= Rank(names[j])
  }

  lemma PrefixOrdered(names: seq<Stage>, whole: seq<Stage>)
    requires names <= whole && Ordered(whole)
    ensures Ordered(names)
  {
  }

  const DEGRADED := [OBSERVE, CONTEXT, STRATEGY, PLAN, SUPERVISE, EXECUTE, VERIFY, MEMORY_UPDATE]

  lemma LifecycleIsOrdered()
    ensures Ordered(LIFECYCLE) && Ordered(DEGRADED)
  {
  }

  lemma GrammarIsOrdered(s: CycleScript, r: Flow)
    requires Grammatical(s, r)
    ensures Ordered(Names(r.frame.outcomes))
  {
    var names := Names(r.frame.outcomes);
    LifecycleIsOrdered();
    LateStages();
    assert [OBSERVE, CONTEXT, STRATEGY] + LATE_STAGES == DEGRADED;
    if names <= LIFECYCLE {
      PrefixOrdered(names, LIFECYCLE);
    } else if names <= DEGRADED {
      PrefixOrdered(names, DEGRADED);
    } else {
      ShortShapes(names);
    }
  }

  lemma ShortShapes(names: seq<Stage>)
    requires names == [OBSERVE, OBSERVE] || names == [OBSERVE, CONTEXT] || names <= [OBSERVE]
    ensures Ordered(names)
  {
  }

  /** Trace grammar: whatever fails, the recorded stages are in lifecycle order and of one of a few shapes. */
  lemma CycleGrammar(cfg: AgentConfig, w: World, symbol: string, s: CycleScript)
    ensures var cycle := Cycle(cfg, w, symbol, s).1;
      && Ordered(Names(cycle.stages))
      && (if Halted(cfg, w, s.startedAt) then cycle == RefusedCycle(symbol, s)
          else cycle.stages == Stages(cfg, s, StartFrame(w)).frame.outcomes
               && Grammatical(s, Stages(cfg, s, StartFrame(w))))
  {
    StagesOutcome(cfg, w, s);
    GrammarIsOrdered(s, Stages(cfg, s, StartFrame(w)));
  }

  /**
    * A cycle is ok exactly when it was not refused and no collaborator it met failed. In particular a fault
    * with a blank message, which leaves no FAILED outcome behind, still makes the cycle not ok.
    */
  lemma OkIffFaultFree(cfg: AgentConfig, w: World, symbol: string, s: CycleScript)
    ensures Cycle(cfg, w, symbol, s).1.Ok()
        <==> !Halted(cfg, w, s.startedAt) && EarlyFaultFree(s) && LateFaultFree(cfg, w, s)
  {
    StagesOutcome(cfg, w, s);
    if !Halted(cfg, w, s.startedAt) {
      var r := Stages(cfg, s, StartFrame(w));
      assert r.Abort? ==> ErrorText(r.exc)[0] == '!';
      assert Cycle(cfg, w, symbol, s).1.Ok() <==> Fine(r);
    }
  }

  // ---- When does a failure escape its stage? -----------------------------------------------------

  /** A fault that its stage can record: its message is not blank. */
  predicate Told(fault: Option<Exception>) {
    fault.Some? ==> !Blank(fault.value.message)
  }

  predicate ToldFault(fault: Fault) {
    !fault.NoFault? ==> !Blank(fault.exc.message)
  }

  /** Of the faults that a cycle meets from PLAN up to VERIFY, each can be recorded. */
  predicate ReachesMemory(cfg: AgentConfig, w: World, s: CycleScript)
    requires s.observe.Returned?
  {
    && Told(s.planInputFault)
    && (s.planInputFault.None? && cfg.hasPlanner ==> Told(s.planFault))
    && (s.planInputFault.None? && (cfg.hasPlanner ==> s.planFault.None?)
        && FinalProposal(cfg, s.observe.value, s.reply).Returned? ==>
          ToldFault(s.reviewFault) && (s.reviewFault.NoFault? ==> ExecutionTold(DecisionOf(cfg, w, s), s)))
  }

  predicate ExecutionTold(d: SupervisorDecision, s: CycleScript) {
    d.approved && d.proposal.action != HOLD ==>
      ToldFault(s.executeFault) && (s.executeFault.NoFault? ==> Told(s.verifyFault))
  }

  /** Of all the faults that a cycle meets, each can be recorded; a recorded OBSERVE failure is the last it meets. */
  predicate FaultsTold(cfg: AgentConfig, w: World, s: CycleScript) {
    if s.observe.Raised? then !Blank(s.observe.exc.message)
    else if s.contextFault.Some? then Told(s.contextFault)
    else Told(s.strategyFault) && ReachesMemory(cfg, w, s) && Told(s.memoryFault)
  }

  lemma FromVerifyGoes(cfg: AgentConfig, s: CycleScript, f: Frame)
    ensures FromVerify(cfg, s, f).Next? <==> (f.record.Some? ==> Told(s.verifyFault)) && Told(s.memoryFault)
  {
  }

  lemma FromExecuteGoes(cfg: AgentConfig, s: CycleScript, f: Frame)
    requires f.record.None?
    ensures FromExecute(cfg, s, f).Next? <==>
      (f.decision.Some? ==> ExecutionTold(f.decision.value, s)) && Told(s.memoryFault)
  {
    FromVerifyGoes(cfg, s, ExecuteStage(cfg, s, f).frame);
  }

  lemma FromSuperviseGoes(cfg: AgentConfig, s: CycleScript, f: Frame)
    requires f.observation.Some? && f.decision.None? && f.record.None?
    ensures FromSupervise(cfg, s, f).Next? <==>
      && (f.proposal.Some? && WithVolume(cfg, f.proposal.value).Returned? ==>
            ToldFault(s.reviewFault)
            && (s.reviewFault.NoFault? ==>
                  ExecutionTold(Decide(cfg.risk, f.world.verdicts, WithVolume(cfg, f.proposal.value).value,
                                       RiskContextFor(f.observation.value, s.serverTime), s.decidedAt), s)))
      && Told(s.memoryFault)
  {
    var r := SuperviseStage(cfg, s, f);
    SuperviseOutcome(cfg, s, f);
    if f.proposal.Some? {
      SuperviseEffects(cfg, s, f);
    }
    FromExecuteGoes(cfg, s, r.frame);
  }

  lemma FromPlanGoes(cfg: AgentConfig, w: World, s: CycleScript, f: Frame)
    requires s.observe.Returned? && f.observation == Some(s.observe.value)
    requires f.proposal.None? && f.record.None? && f.decision.None? && f.world.verdicts == w.verdicts
    ensures FromPlan(cfg, s, f).Next? <==> ReachesMemory(cfg, w, s) && Told(s.memoryFault)
  {
    PlanOutcome(cfg, s, f);
    PlanEffects(cfg, s, f);
    FromSuperviseGoes(cfg, s, PlanStage(cfg, s, f).frame);
  }

  lemma StagesGo(cfg: AgentConfig, w: World, s: CycleScript)
    ensures Stages(cfg, s, StartFrame(w)).Next? <==> FaultsTold(cfg, w, s)
  {
    ObserveEffects(w, s);
    var r1 := ObserveStage(s, StartFrame(w));
    if s.observe.Returned? && s.contextFault.None? {
      StrategyOutcome(cfg, s, r1.frame);
      FromPlanGoes(cfg, w, s, StrategyStage(cfg, s, r1.frame).frame);
    }
  }

  /**
    * The cycle's docstring says that failures become outcomes. A failure escapes to the cycle's error exactly
    * when the watchdog refused the cycle or some fault that it met, at whatever stage, has a blank message.
    */
  lemma ErrorIffBlankFault(cfg: AgentConfig, w: World, symbol: string, s: CycleScript)
    ensures Cycle(cfg, w, symbol, s).1.error != "" <==> Halted(cfg, w, s.startedAt) || !FaultsTold(cfg, w, s)
  {
    StagesGo(cfg, w, s);
    var r := Stages(cfg, s, StartFrame(w));
    if r.Abort? {
      assert ErrorText(r.exc)[0] == '!';
    }
  }

  /** A concrete failure that becomes no outcome: an observer that times out without a message. */
  lemma BlankFaultEscapes(cfg: AgentConfig, w: World, symbol: string)
    requires w.dog == Some(FRESH_DOG)
    ensures exists s: CycleScript ::
      var cycle := Cycle(cfg, w, symbol, s).1; cycle.stages == [] && cycle.error != ""
  {
    var fault := Exception(TimeoutOrOs, "");
    var t := TerminalScript(Raised(fault), Raised(fault), None, Raised(fault), None, Raised(fault), None,
                            Raised(fault), Raised(fault));
    var s := CycleScript("id", "id", 0.0, Raised(fault), None, None, None, None, Raised(fault), 0.0, 0.0,
                         NoFault, NoFault, t, None, None, 0.0);
    assert !Halted(cfg, w, s.startedAt);
    ErrorIffBlankFault(cfg, w, symbol, s);
    assert Cycle(cfg, w, symbol, s).1.stages == [];
  }

  /**
    * The operations guide says that every cycle records nine outcomes. It does, in lifecycle order, exactly
    * when the cycle was not refused, OBSERVE, CONTEXT and STRATEGY succeeded, and no fault met later has a
    * blank message.
    */
  lemma NineStagesIff(cfg: AgentConfig, w: World, symbol: string, s: CycleScript)
    ensures Names(Cycle(cfg, w, symbol, s).1.stages) == LIFECYCLE <==>
      !Halted(cfg, w, s.startedAt) && EarlyFaultFree(s) && ReachesMemory(cfg, w, s) && Told(s.memoryFault)
  {
    StagesOutcome(cfg, w, s);
    StagesGo(cfg, w, s);
  }
}
