/** Which status each recorded stage carries, and with which message, whatever the collaborators do. */
module StageStatuses {
  import opened Common
  import opened Planner
  import opened Agent
  import opened CycleLaws
  import opened CycleTrace

  /** The stage is OK, or FAILED with the message of its fault. */
  predicate ByFault(x: StageOutcome, fault: Option<Exception>) {
    if fault.Some? then x.status == FAILED && x.summary == fault.value.message else x.status == OK
  }

  /** The cycle decided on a trade and approved it. */
  predicate OrderDecided(cfg: AgentConfig, w: World, s: CycleScript) {
    Decided(cfg, w, s) && DecisionOf(cfg, w, s).approved && DecisionOf(cfg, w, s).proposal.action != HOLD
  }

  function PlanFaultOf(cfg: AgentConfig, s: CycleScript): Option<Exception> {
    if s.planInputFault.Some? then s.planInputFault else if cfg.hasPlanner then s.planFault else None
  }

  function ExceptionOf(fault: Fault): Option<Exception> {
    match fault case NoFault => None case Before(exc) => Some(exc) case After(exc) => Some(exc)
  }

  /** The outcome `x` of a cycle that got past OBSERVE tells what became of its stage. */
  predicate Tells(cfg: AgentConfig, w: World, s: CycleScript, x: StageOutcome) {
    match x.stage
    case OBSERVE => x.status == OK
    case CONTEXT => x.status == OK
    case STRATEGY => ByFault(x, s.strategyFault)
    case MEMORY => x.status == OK && s.strategyFault.None?
    case PLAN => ByFault(x, PlanFaultOf(cfg, s))
    case SUPERVISE => SuperviseTells(cfg, w, s, x)
    case EXECUTE => if OrderDecided(cfg, w, s) then ByFault(x, ExceptionOf(s.executeFault)) else x.status == SKIPPED
    case VERIFY => if RecordReturned(cfg, w, s) then ByFault(x, s.verifyFault) else x.status == SKIPPED
    case MEMORY_UPDATE => ByFault(x, s.memoryFault)
  }

  /** SUPERVISE is OK iff there is a decision; a failed review leaves its message. */
  predicate SuperviseTells(cfg: AgentConfig, w: World, s: CycleScript, x: StageOutcome) {
    && x.status != SKIPPED && (x.status == OK <==> Decided(cfg, w, s))
    && (Planned(cfg, w, s) && FinalProposal(cfg, s.observe.value, s.reply).Returned? && !s.reviewFault.NoFault? ==>
          x.summary == s.reviewFault.exc.message)
  }

  predicate AllTell(cfg: AgentConfig, w: World, s: CycleScript, outcomes: seq<StageOutcome>) {
    forall i | 0 <= i < |outcomes| :: Tells(cfg, w, s, outcomes[i])
  }

  lemma NoteTells(cfg: AgentConfig, w: World, s: CycleScript, outcomes: seq<StageOutcome>, x: StageOutcome)
    requires AllTell(cfg, w, s, outcomes) && Tells(cfg, w, s, x)
    ensures AllTell(cfg, w, s, outcomes + [x])
  {
  }

  /** A stage records nothing, or one outcome that tells. */
  predicate AddsTelling(cfg: AgentConfig, w: World, s: CycleScript, f: Frame, r: Flow) {
    || r.frame.outcomes == f.outcomes
    || (&& |r.frame.outcomes| == |f.outcomes| + 1 && r.frame.outcomes[..|f.outcomes|] == f.outcomes
        && Tells(cfg, w, s, r.frame.outcomes[|f.outcomes|]))
  }

  lemma AddedTells(cfg: AgentConfig, w: World, s: CycleScript, f: Frame, r: Flow)
    requires AllTell(cfg, w, s, f.outcomes) && AddsTelling(cfg, w, s, f, r)
    ensures AllTell(cfg, w, s, r.frame.outcomes)
  {
    if r.frame.outcomes != f.outcomes {
      assert r.frame.outcomes == f.outcomes + [r.frame.outcomes[|f.outcomes|]];
      NoteTells(cfg, w, s, f.outcomes, r.frame.outcomes[|f.outcomes|]);
    }
  }

  lemma FromVerifyTells(cfg: AgentConfig, w: World, s: CycleScript, f: Frame)
    requires AllTell(cfg, w, s, f.outcomes) && (f.record.Some? <==> RecordReturned(cfg, w, s))
    ensures AllTell(cfg, w, s, FromVerify(cfg, s, f).frame.outcomes)
  {
    var r := VerifyStage(s, f);
    VerifyAdds(cfg, w, s, f);
    AddedTells(cfg, w, s, f, r);
    MemoryAdds(cfg, w, s, r.frame);
    AddedTells(cfg, w, s, r.frame, MemoryUpdateStage(cfg, s, r.frame));
  }

  lemma VerifyAdds(cfg: AgentConfig, w: World, s: CycleScript, f: Frame)
    requires f.record.Some? <==> RecordReturned(cfg, w, s)
    ensures AddsTelling(cfg, w, s, f, VerifyStage(s, f))
  {
  }

  lemma MemoryAdds(cfg: AgentConfig, w: World, s: CycleScript, f: Frame)
    ensures AddsTelling(cfg, w, s, f, MemoryUpdateStage(cfg, s, f))
  {
  }

  lemma FromExecuteTells(cfg: AgentConfig, w: World, s: CycleScript, f: Frame)
    requires AllTell(cfg, w, s, f.outcomes) && f.record.None? && (WantsOrder(f) <==> OrderDecided(cfg, w, s))
    ensures AllTell(cfg, w, s, FromExecute(cfg, s, f).frame.outcomes)
  {
    var r := ExecuteStage(cfg, s, f);
    ExecuteAdds(cfg, w, s, f);
    AddedTells(cfg, w, s, f, r);
    FromVerifyTells(cfg, w, s, r.frame);
  }

  lemma ExecuteAdds(cfg: AgentConfig, w: World, s: CycleScript, f: Frame)
    requires f.record.None? && (WantsOrder(f) <==> OrderDecided(cfg, w, s))
    ensures AddsTelling(cfg, w, s, f, ExecuteStage(cfg, s, f))
    ensures ExecuteStage(cfg, s, f).frame.record.Some? <==> RecordReturned(cfg, w, s)
  {
    var r := ExecuteStage(cfg, s, f);
    var x := if !WantsOrder(f) then StageOutcome(EXECUTE, SKIPPED, "skipped")
             else if s.executeFault.NoFault? then StageOutcome(EXECUTE, OK, "ok")
             else StageOutcome(EXECUTE, FAILED, s.executeFault.exc.message);
    assert Tells(cfg, w, s, x);
    assert r.frame.outcomes == f.outcomes || r.frame.outcomes == f.outcomes + [x];
  }

  lemma FromSuperviseTells(cfg: AgentConfig, w: World, s: CycleScript, f: Frame)
    requires AllTell(cfg, w, s, f.outcomes) && s.observe.Returned? && f.observation == Some(s.observe.value)
    requires f.proposal == if Planned(cfg, w, s) then Some(ProposalFor(cfg, s.observe.value, s.reply)) else None
    requires f.decision.None? && f.record.None? && f.world.verdicts == w.verdicts
    ensures AllTell(cfg, w, s, FromSupervise(cfg, s, f).frame.outcomes)
  {
    var r := SuperviseStage(cfg, s, f);
    SuperviseOutcome(cfg, s, f);
    if f.proposal.Some? {
      SuperviseEffects(cfg, s, f);
    }
    SuperviseAdds(cfg, w, s, f);
    AddedTells(cfg, w, s, f, r);
    FromExecuteTells(cfg, w, s, r.frame);
  }

  lemma SuperviseAdds(cfg: AgentConfig, w: World, s: CycleScript, f: Frame)
    requires s.observe.Returned? && f.observation == Some(s.observe.value)
    requires f.proposal == if Planned(cfg, w, s) then Some(ProposalFor(cfg, s.observe.value, s.reply)) else None
    ensures AddsTelling(cfg, w, s, f, SuperviseStage(cfg, s, f))
  {
    if !Planned(cfg, w, s) {
      UndecidedAdds(cfg, w, s, f, KeyError("proposal"));
    } else {
      var final := FinalProposal(cfg, s.observe.value, s.reply);
      if final.Returned? {
        ReviewAdds(cfg, w, s, f.(proposal := Some(final.value)), final.value);
      } else {
        UndecidedAdds(cfg, w, s, f, final.exc);
      }
    }
  }

  /** Without a proposal to review SUPERVISE fails. */
  lemma UndecidedAdds(cfg: AgentConfig, w: World, s: CycleScript, f: Frame, exc: Exception)
    requires !(Planned(cfg, w, s) && FinalProposal(cfg, s.observe.value, s.reply).Returned?)
    ensures AddsTelling(cfg, w, s, f, Handle(f, SUPERVISE, exc))
  {
    assert Tells(cfg, w, s, StageOutcome(SUPERVISE, FAILED, exc.message));
  }

  lemma ReviewAdds(cfg: AgentConfig, w: World, s: CycleScript, f: Frame, p: TradeProposal)
    requires Planned(cfg, w, s) && FinalProposal(cfg, s.observe.value, s.reply) == Returned(p)
    ensures AddsTelling(cfg, w, s, f, ReviewStage(cfg, s, f, p, s.observe.value))
  {
    var r := ReviewStage(cfg, s, f, p, s.observe.value);
    var x := if s.reviewFault.NoFault? then StageOutcome(SUPERVISE, OK, "ok")
             else StageOutcome(SUPERVISE, FAILED, s.reviewFault.exc.message);
    assert Tells(cfg, w, s, x);
    assert r.frame.outcomes == f.outcomes || r.frame.outcomes == f.outcomes + [x];
  }

  lemma FromPlanTells(cfg: AgentConfig, w: World, s: CycleScript, f: Frame)
    requires AllTell(cfg, w, s, f.outcomes) && s.observe.Returned? && f.observation == Some(s.observe.value)
    requires !Halted(cfg, w, s.startedAt) && s.contextFault.None? && Told(s.strategyFault)
    requires f.proposal.None? && f.decision.None? && f.record.None? && f.world.verdicts == w.verdicts
    ensures AllTell(cfg, w, s, FromPlan(cfg, s, f).frame.outcomes)
  {
    var r := PlanStage(cfg, s, f);
    PlanEffects(cfg, s, f);
    assert AddsTelling(cfg, w, s, f, r);
    AddedTells(cfg, w, s, f, r);
    assert r.frame.record.None?;
    if r.Next? {
      FromSuperviseTells(cfg, w, s, r.frame);
    }
  }

  /** OBSERVE and CONTEXT, when one of them fails: what was read is OK, and a failure leaves its message. */
  predicate BlindTells(s: CycleScript, outcomes: seq<StageOutcome>)
    requires s.observe.Raised? || s.contextFault.Some?
  {
    var exc := if s.observe.Raised? then s.observe.exc else s.contextFault.value;
    var read := if s.observe.Raised? then 0 else 1;
    && |outcomes| == read + (if Blank(exc.message) then 0 else 1)
    && (read == 1 ==> outcomes[0].stage == OBSERVE && outcomes[0].status == OK)
    && (!Blank(exc.message) ==> outcomes[read] == StageOutcome(OBSERVE, FAILED, exc.message))
  }

  lemma BlindOutcomes(cfg: AgentConfig, w: World, s: CycleScript)
    requires s.observe.Raised? || s.contextFault.Some?
    ensures BlindTells(s, Stages(cfg, s, StartFrame(w)).frame.outcomes)
  {
    ObserveEffects(w, s);
    assert Stages(cfg, s, StartFrame(w)).frame == ObserveStage(s, StartFrame(w)).frame;
  }

  lemma SeeingTells(cfg: AgentConfig, w: World, s: CycleScript)
    requires !Halted(cfg, w, s.startedAt) && s.observe.Returned? && s.contextFault.None?
    ensures AllTell(cfg, w, s, Stages(cfg, s, StartFrame(w)).frame.outcomes)
  {
    ObserveEffects(w, s);
    var r1 := ObserveStage(s, StartFrame(w));
    assert AllTell(cfg, w, s, r1.frame.outcomes);
    var r2 := StrategyStage(cfg, s, r1.frame);
    StrategyTells(cfg, w, s, r1.frame);
    if r2.Next? {
      FromPlanTells(cfg, w, s, r2.frame);
    }
  }

  lemma StrategyTells(cfg: AgentConfig, w: World, s: CycleScript, f: Frame)
    requires AllTell(cfg, w, s, f.outcomes) && f.observation.Some?
    ensures var r := StrategyStage(cfg, s, f);
      && AllTell(cfg, w, s, r.frame.outcomes) && (r.Next? <==> Told(s.strategyFault))
      && r.frame == f.(outcomes := r.frame.outcomes, signal := r.frame.signal, writes := r.frame.writes)
  {
    if s.strategyFault.None? {
      var ok := StageOutcome(STRATEGY, OK, "ok");
      NoteTells(cfg, w, s, f.outcomes, ok);
      NoteTells(cfg, w, s, f.outcomes + [ok], StageOutcome(MEMORY, OK, "ok"));
    }
  }

  /**
    * Whatever fails, each recorded stage carries the status that its own part of the cycle earned: SKIPPED only
    * where there was nothing to do, FAILED with the message of the fault that it met, and OK otherwise. A refused
    * cycle changes nothing and records one skipped OBSERVE.
    */
  lemma CycleStatuses(cfg: AgentConfig, w: World, symbol: string, s: CycleScript)
    ensures var (after, cycle) := Cycle(cfg, w, symbol, s);
      && cycle.cycleId == s.cycleId && cycle.symbol == symbol
      && (if Halted(cfg, w, s.startedAt) then
            && after == w && cycle.error != "" && |cycle.stages| == 1
            && cycle.stages[0].stage == OBSERVE && cycle.stages[0].status == SKIPPED
          else if s.observe.Returned? && s.contextFault.None? then AllTell(cfg, w, s, cycle.stages)
          else BlindTells(s, cycle.stages))
  {
    if !Halted(cfg, w, s.startedAt) {
      if s.observe.Returned? && s.contextFault.None? {
        SeeingTells(cfg, w, s);
      } else {
        BlindOutcomes(cfg, w, s);
      }
    }
  }
}
