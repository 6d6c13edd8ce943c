/** The rows that a cycle offers to memory: the audit trail of a decision, whatever fails. */
module AuditTrail {
  import opened Common
  import opened Market
  import opened Planner
  import opened SupervisorBoundary
  import opened Executor
  import opened Agent
  import opened CycleLaws
  import opened CycleTrace

  /** The record that the executor returns; a replayed one may be about another trade. */
  function RecordFor(cfg: AgentConfig, exec: ExecState, d: SupervisorDecision, s: CycleScript): ExecutionRecord {
    Execute(cfg.exec, exec, d, KeyOf(Some(s.cycleId), s.freshId), s.terminal).1
  }

  /** Rows from EXECUTE on: `record` is what the executor returned, `reached` says that the last stage started. */
  function Tail(cfg: AgentConfig, record: Option<ExecutionRecord>, reached: bool, o: Observation): seq<WriteRequest> {
    (if record.Some? then Offered(cfg.hasTradeMemory, ExecutionRow(record.value)) else [])
    + (if reached then Offered(cfg.hasShortTerm, ObservationRow(o)) + OutcomeOf(cfg, record) else [])
  }

  /** The outcome of an execution: the record's own symbol and status. */
  function OutcomeOf(cfg: AgentConfig, record: Option<ExecutionRecord>): seq<WriteRequest> {
    if record.Some? then Offered(cfg.hasTradeMemory, OutcomeRow(record.value.symbol, record.value.status)) else []
  }

  /** The rows that the decision `d` leads to. */
  function DecidedRows(cfg: AgentConfig, exec: ExecState, d: SupervisorDecision, s: CycleScript, o: Observation)
    : seq<WriteRequest>
  {
    var returned := d.approved && d.proposal.action != HOLD && s.executeFault.NoFault?;
    Offered(cfg.hasTradeMemory, DecisionRow(d))
    + Tail(cfg, if returned then Some(RecordFor(cfg, exec, d, s)) else None, ExecutionTold(d, s), o)
  }

  /** The rows of `Trail` from SUPERVISE on, and from PLAN on. */
  function FromSuperviseRows(cfg: AgentConfig, w: World, s: CycleScript): seq<WriteRequest>
    requires s.observe.Returned?
  {
    if Decided(cfg, w, s) then DecidedRows(cfg, w.exec, DecisionOf(cfg, w, s), s, s.observe.value)
    else Tail(cfg, None, Told(s.strategyFault) && ReachesMemory(cfg, w, s), s.observe.value)
  }

  function LateTrail(cfg: AgentConfig, w: World, s: CycleScript): seq<WriteRequest>
    requires s.observe.Returned?
  {
    Offered(cfg.hasTradeMemory && Planned(cfg, w, s), ProposalRow(ProposalFor(cfg, s.observe.value, s.reply)))
    + FromSuperviseRows(cfg, w, s)
  }

  /** Everything that a cycle offers, in order: each row exactly when its own stage got that far. */
  function Trail(cfg: AgentConfig, w: World, s: CycleScript): seq<WriteRequest> {
    if s.observe.Raised? || s.contextFault.Some? then [] else
      Offered(cfg.hasStrategyMemory && s.strategyFault.None?, SignalRow(PrimarySignal(cfg, s.observe.value)))
      + LateTrail(cfg, w, s)
  }

  // ---- Stage by stage ----------------------------------------------------------------------------

  lemma Regroup(a: seq<WriteRequest>, b: seq<WriteRequest>, c: seq<WriteRequest>)
    ensures (a + b) + c == a + (b + c)
  {
  }

  lemma TailOffers(cfg: AgentConfig, s: CycleScript, f: Frame)
    requires f.observation.Some?
    ensures FromVerify(cfg, s, f).frame.writes == f.writes
      + (if f.record.Some? ==> Told(s.verifyFault) then FinalRows(cfg, f.observation, f.record) else [])
  {
    var r := VerifyStage(s, f);
    assert r.frame == f.(outcomes := r.frame.outcomes);
    assert r.Next? <==> (f.record.Some? ==> Told(s.verifyFault));
  }

  lemma ExecuteRows(cfg: AgentConfig, s: CycleScript, f: Frame)
    requires f.record.None?
    ensures var r := ExecuteStage(cfg, s, f);
      && r.frame.observation == f.observation
      && (r.Next? <==> (WantsOrder(f) ==> ToldFault(s.executeFault)))
      && (if WantsOrder(f) && s.executeFault.NoFault? then
            var record := RecordFor(cfg, f.world.exec, f.decision.value, s);
            r.frame.record == Some(record)
            && r.frame.writes == f.writes + Offered(cfg.hasTradeMemory, ExecutionRow(record))
          else r.frame.record.None? && r.frame.writes == f.writes)
  {
  }

  /** The rows that EXECUTE and the later stages offer. */
  function ExecuteTail(cfg: AgentConfig, s: CycleScript, f: Frame): seq<WriteRequest>
    requires f.observation.Some?
  {
    var record := if WantsOrder(f) && s.executeFault.NoFault?
      then Some(RecordFor(cfg, f.world.exec, f.decision.value, s)) else None;
    Tail(cfg, record, f.decision.Some? ==> ExecutionTold(f.decision.value, s), f.observation.value)
  }

  lemma ExecuteOffers(cfg: AgentConfig, s: CycleScript, f: Frame)
    requires f.observation.Some? && f.record.None?
    ensures FromExecute(cfg, s, f).frame.writes == f.writes + ExecuteTail(cfg, s, f)
  {
    var r := ExecuteStage(cfg, s, f);
    ExecuteRows(cfg, s, f);
    TailOffers(cfg, s, r.frame);
    if WantsOrder(f) && s.executeFault.NoFault? {
      var record := RecordFor(cfg, f.world.exec, f.decision.value, s);
      Regroup(f.writes, Offered(cfg.hasTradeMemory, ExecutionRow(record)),
              if Told(s.verifyFault) then FinalRows(cfg, f.observation, Some(record)) else []);
    }
  }

  /** What is offered from SUPERVISE on when nothing gets decided. */
  lemma UndecidedOffers(cfg: AgentConfig, s: CycleScript, f: Frame)
    requires f.observation.Some? && f.decision.None? && f.record.None?
    requires SuperviseStage(cfg, s, f).frame.decision.None?
    ensures FromSupervise(cfg, s, f).frame.writes
         == f.writes + Tail(cfg, None, SuperviseStage(cfg, s, f).Next?, f.observation.value)
  {
    var r := SuperviseStage(cfg, s, f);
    assert r.frame.writes == f.writes && r.frame.observation == f.observation && r.frame.record.None?;
    ExecuteOffers(cfg, s, r.frame);
  }

  /** What is offered from SUPERVISE on when `d` is decided. */
  lemma DecidedOffers(cfg: AgentConfig, s: CycleScript, f: Frame, d: SupervisorDecision)
    requires f.observation.Some? && f.decision.None? && f.record.None?
    requires SuperviseStage(cfg, s, f).frame.decision == Some(d)
    ensures FromSupervise(cfg, s, f).frame.writes
         == f.writes + DecidedRows(cfg, f.world.exec, d, s, f.observation.value)
  {
    var r := SuperviseStage(cfg, s, f);
    var row := Offered(cfg.hasTradeMemory, DecisionRow(d));
    assert r.frame.writes == f.writes + row && r.frame.observation == f.observation && r.frame.record.None?;
    assert r.Next? && r.frame.world.exec == f.world.exec;
    ExecuteOffers(cfg, s, r.frame);
    Regroup(f.writes, row, ExecuteTail(cfg, s, r.frame));
  }

  /** What is offered from SUPERVISE on by a planned cycle. */
  lemma PlannedOffers(cfg: AgentConfig, w: World, s: CycleScript, f: Frame)
    requires Planned(cfg, w, s) && f.observation == Some(s.observe.value)
    requires f.proposal == Some(ProposalFor(cfg, s.observe.value, s.reply)) && f.record.None? && f.decision.None?
    requires f.world.verdicts == w.verdicts && f.world.exec == w.exec
    ensures FromSupervise(cfg, s, f).frame.writes == f.writes + FromSuperviseRows(cfg, w, s)
  {
    SuperviseEffects(cfg, s, f);
    if Decided(cfg, w, s) {
      DecidedOffers(cfg, s, f, DecisionOf(cfg, w, s));
    } else {
      SuperviseFaults(cfg, s, f);
      UndecidedOffers(cfg, s, f);
    }
  }

  lemma SuperviseFaults(cfg: AgentConfig, s: CycleScript, f: Frame)
    requires f.observation.Some? && f.proposal.Some?
    requires !(WithVolume(cfg, f.proposal.value).Returned? && s.reviewFault.NoFault?)
    ensures SuperviseStage(cfg, s, f).Next? <==>
      (WithVolume(cfg, f.proposal.value).Returned? ==> ToldFault(s.reviewFault))
  {
  }

  /** What is offered from PLAN on, by a cycle whose strategy stage let it go on. */
  lemma PlanOffers(cfg: AgentConfig, w: World, s: CycleScript, f: Frame)
    requires !Halted(cfg, w, s.startedAt) && s.observe.Returned? && s.contextFault.None? && Told(s.strategyFault)
    requires f.observation == Some(s.observe.value) && f.proposal.None? && f.record.None? && f.decision.None?
    requires f.world.verdicts == w.verdicts && f.world.exec == w.exec
    ensures FromPlan(cfg, s, f).frame.writes == f.writes + LateTrail(cfg, w, s)
  {
    var r := PlanStage(cfg, s, f);
    PlanOutcome(cfg, s, f);
    PlanEffects(cfg, s, f);
    if Planned(cfg, w, s) {
      PlannedOffers(cfg, w, s, r.frame);
      Regroup(f.writes, Offered(cfg.hasTradeMemory, ProposalRow(ProposalFor(cfg, s.observe.value, s.reply))),
              FromSuperviseRows(cfg, w, s));
    } else {
      UnplannedOffers(cfg, s, f);
      assert LateTrail(cfg, w, s) == FromSuperviseRows(cfg, w, s);
    }
  }

  lemma UnplannedOffers(cfg: AgentConfig, s: CycleScript, f: Frame)
    requires f.observation.Some? && f.proposal.None? && f.record.None? && f.decision.None?
    requires PlanStage(cfg, s, f).frame.proposal.None?
    ensures FromPlan(cfg, s, f).frame.writes
         == f.writes + Tail(cfg, None, PlanStage(cfg, s, f).Next?, f.observation.value)
  {
    var r := PlanStage(cfg, s, f);
    assert r.frame == f.(outcomes := r.frame.outcomes);
    if r.Next? {
      var told := SuperviseStage(cfg, s, r.frame);
      assert told.Next? && told.frame.decision.None?;
      UndecidedOffers(cfg, s, r.frame);
    }
  }

  /** The audit trail: whatever fails, a cycle that is not refused offers memory exactly the rows of `Trail`. */
  lemma CycleOffersTrail(cfg: AgentConfig, w: World, s: CycleScript)
    requires !Halted(cfg, w, s.startedAt)
    ensures Stages(cfg, s, StartFrame(w)).frame.writes == Trail(cfg, w, s)
  {
    ObserveEffects(w, s);
    var r1 := ObserveStage(s, StartFrame(w));
    assert r1.frame.writes == [];
    if s.observe.Returned? && s.contextFault.None? {
      StrategyOutcome(cfg, s, r1.frame);
      var r2 := StrategyStage(cfg, s, r1.frame);
      assert r2.frame.writes ==
        Offered(cfg.hasStrategyMemory && s.strategyFault.None?, SignalRow(PrimarySignal(cfg, s.observe.value)));
      if Told(s.strategyFault) {
        PlanOffers(cfg, w, s, r2.frame);
      }
    }
  }

  // ---- What the trail shows ----------------------------------------------------------------------

  /**
    * The rows show the decision `d`, if there is one, and no other; directly behind it the execution record, if
    * there is one; and no other execution.
    */
  predicate Audited(rows: seq<WriteRequest>, d: Option<SupervisorDecision>, record: Option<ExecutionRecord>) {
    && (forall r | r in rows && r.DecisionRow? :: d == Some(r.decision))
    && (d.Some? ==> DecisionRow(d.value) in rows)
    && (record.Some? <==> exists r | r in rows :: r.ExecutionRow?)
    && (forall i | 0 <= i < |rows| && rows[i].ExecutionRow? ::
          record == Some(rows[i].record) && i > 0 && d.Some? && rows[i - 1] == DecisionRow(d.value))
  }

  /** With a trade memory, the trail shows the decision iff one was made, and its record iff the executor returned. */
  lemma ExecutionIsAudited(cfg: AgentConfig, w: World, s: CycleScript)
    requires !Halted(cfg, w, s.startedAt) && cfg.hasTradeMemory
    ensures Audited(Stages(cfg, s, StartFrame(w)).frame.writes,
                    if Decided(cfg, w, s) then Some(DecisionOf(cfg, w, s)) else None,
                    if RecordReturned(cfg, w, s) then Some(RecordFor(cfg, w.exec, DecisionOf(cfg, w, s), s)) else None)
  {
    CycleOffersTrail(cfg, w, s);
    if s.observe.Returned? && s.contextFault.None? {
      var early := TrailSplits(cfg, w, s);
      if Decided(cfg, w, s) {
        var d := DecisionOf(cfg, w, s);
        var record := if RecordReturned(cfg, w, s) then Some(RecordFor(cfg, w.exec, d, s)) else None;
        DecidedShape(cfg, early, d, record, ExecutionTold(d, s), s.observe.value);
      } else {
        UndecidedShape(cfg, early, Told(s.strategyFault) && ReachesMemory(cfg, w, s), s.observe.value);
      }
    }
  }

  /** The trail of an observed cycle: neither decision nor execution rows, and then those of the decision. */
  lemma TrailSplits(cfg: AgentConfig, w: World, s: CycleScript) returns (early: seq<WriteRequest>)
    requires s.observe.Returned? && s.contextFault.None?
    ensures Trail(cfg, w, s) == early + FromSuperviseRows(cfg, w, s)
    ensures forall r | r in early :: r.SignalRow? || r.ProposalRow?
  {
    var signal, proposal := SignalRow(PrimarySignal(cfg, s.observe.value)),
      ProposalRow(ProposalFor(cfg, s.observe.value, s.reply));
    var a := Offered(cfg.hasStrategyMemory && s.strategyFault.None?, signal);
    var b := Offered(cfg.hasTradeMemory && Planned(cfg, w, s), proposal);
    early := a + b;
    Regroup(a, b, FromSuperviseRows(cfg, w, s));
  }

  lemma DecidedShape(
    cfg: AgentConfig, early: seq<WriteRequest>, d: SupervisorDecision, record: Option<ExecutionRecord>, reached: bool,
    o: Observation)
    requires cfg.hasTradeMemory && forall r | r in early :: r.SignalRow? || r.ProposalRow?
    ensures Audited(early + (Offered(true, DecisionRow(d)) + Tail(cfg, record, reached, o)), Some(d), record)
  {
    var tail, n := Tail(cfg, record, reached, o), |early|;
    var rows := early + (Offered(true, DecisionRow(d)) + tail);
    assert rows[n] == DecisionRow(d);
    assert forall i | 0 <= i < n :: rows[i] in early;
    assert forall i | n < i < |rows| :: rows[i] == tail[i - n - 1];
    TailShape(cfg, record, reached, o);
    if record.Some? {
      assert rows[n + 1] == ExecutionRow(record.value);
    }
  }

  lemma TailShape(cfg: AgentConfig, record: Option<ExecutionRecord>, reached: bool, o: Observation)
    requires cfg.hasTradeMemory
    ensures var rows := Tail(cfg, record, reached, o);
      && (forall i | 0 <= i < |rows| :: !rows[i].DecisionRow? && (rows[i].ExecutionRow? <==> i == 0 && record.Some?))
      && (record.Some? ==> rows != [] && rows[0] == ExecutionRow(record.value))
  {
    var final := if reached then FinalRows(cfg, Some(o), record) else [];
    assert forall r | r in final :: r.ObservationRow? || r.OutcomeRow?;
  }

  lemma UndecidedShape(cfg: AgentConfig, early: seq<WriteRequest>, reached: bool, o: Observation)
    requires cfg.hasTradeMemory && forall r | r in early :: r.SignalRow? || r.ProposalRow?
    ensures Audited(early + Tail(cfg, None, reached, o), None, None)
  {
    TailShape(cfg, None, reached, o);
  }

  const SIX_ROWS := [Memory.StrategySignal, Memory.TradeProposal, Memory.SupervisorDecision, Memory.Execution,
                     Memory.MarketObservation, Memory.Outcome]

  /**
    * The operations guide promises six rows per cycle. A cycle that is not refused offers them, in the guide's
    * order, exactly when it has all three memories, the strategy stage succeeded, the executor returned a record,
    * and VERIFY, if it failed, could be recorded.
    */
  lemma FullTrailIff(cfg: AgentConfig, w: World, s: CycleScript)
    requires !Halted(cfg, w, s.startedAt)
    ensures Kinds(Stages(cfg, s, StartFrame(w)).frame.writes) == SIX_ROWS <==>
      && cfg.hasShortTerm && cfg.hasTradeMemory && cfg.hasStrategyMemory
      && s.strategyFault.None? && RecordReturned(cfg, w, s) && Told(s.verifyFault)
  {
    CycleOffersTrail(cfg, w, s);
    if s.observe.Returned? && s.contextFault.None? {
      var o := s.observe.value;
      var a, b := cfg.hasStrategyMemory && s.strategyFault.None?, cfg.hasTradeMemory && Planned(cfg, w, s);
      var signal, proposal := SignalRow(PrimarySignal(cfg, o)), ProposalRow(ProposalFor(cfg, o, s.reply));
      if Decided(cfg, w, s) {
        var d := DecisionOf(cfg, w, s);
        var record := if RecordReturned(cfg, w, s) then Some(RecordFor(cfg, w.exec, d, s)) else None;
        SixRowsIff(cfg, a, signal, b, proposal, d, record, ExecutionTold(d, s), o);
      } else {
        FewRows(cfg, a, signal, b, proposal, Told(s.strategyFault) && ReachesMemory(cfg, w, s), o);
      }
    }
  }

  lemma SixRowsIff(
    cfg: AgentConfig, a: bool, signal: WriteRequest, b: bool, proposal: WriteRequest, d: SupervisorDecision,
    record: Option<ExecutionRecord>, reached: bool, o: Observation)
    requires signal.SignalRow? && proposal.ProposalRow?
    ensures Kinds(Offered(a, signal) + (Offered(b, proposal)
                  + (Offered(cfg.hasTradeMemory, DecisionRow(d)) + Tail(cfg, record, reached, o)))) == SIX_ROWS
      <==> a && b && cfg.hasTradeMemory && record.Some? && reached && cfg.hasShortTerm
  {
    var tail := Tail(cfg, record, reached, o);
    assert |tail| == 3 <==> cfg.hasTradeMemory && record.Some? && reached && cfg.hasShortTerm;
    if a && b && |tail| == 3 {
      assert tail == [ExecutionRow(record.value), ObservationRow(o),
                      OutcomeRow(record.value.symbol, record.value.status)];
    }
  }

  lemma FewRows(
    cfg: AgentConfig, a: bool, signal: WriteRequest, b: bool, proposal: WriteRequest, reached: bool, o: Observation)
    ensures Kinds(Offered(a, signal) + (Offered(b, proposal) + Tail(cfg, None, reached, o))) != SIX_ROWS
  {
    assert |Tail(cfg, None, reached, o)| <= 1;
  }

  function Kinds(writes: seq<WriteRequest>): (kinds: seq<Memory.Kind>)
    ensures |kinds| == |writes|
  {
    seq(|writes|, i requires 0 <= i < |writes| => writes[i].Kind())
  }
}
