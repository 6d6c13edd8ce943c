/** Gating, status soundness and at-most-once submission of the executor. */
module ExecutorLaws {
  import opened Common
  import opened Planner
  import opened Risk
  import opened SupervisorBoundary
  import opened Executor

  /** The payloads sent by a run of terminal calls, in order. */
  function Sends(calls: seq<TerminalCall>): seq<Payload> {
    if calls == [] then []
    else (if calls[0].OrderSend? then [calls[0].payload] else []) + Sends(calls[1..])
  }

  lemma SendsAfter(call: TerminalCall, rest: seq<TerminalCall>)
    ensures Sends([call] + rest) == (if call.OrderSend? then [call.payload] else []) + Sends(rest)
  {
  }

  /** Calls that send nothing can be skipped. */
  lemma {:induction false} SendsSkip(calls: seq<TerminalCall>, rest: seq<TerminalCall>)
    requires forall c | c in calls :: !c.OrderSend?
    ensures Sends(calls + rest) == Sends(rest)
  {
    if calls == [] {
      assert calls + rest == rest;
    } else {
      assert calls[0] in calls && forall c | c in calls[1..] :: c in calls;
      SendsSkip(calls[1..], rest);
      SendsAfter(calls[0], calls[1..] + rest);
      assert calls + rest == [calls[0]] + (calls[1..] + rest);
    }
  }

  // ---- Gating ------------------------------------------------------------------------------------

  /** Everything that must hold, outside the terminal, before the terminal may be asked to trade. */
  predicate MayTrade(cfg: ExecConfig, d: SupervisorDecision, key: string) {
    && d.approved && d.proposal.action != HOLD && !Blank(key)
    && cfg.mode != DryRun && (cfg.mode == Live ==> cfg.allowLive) && cfg.hasConnection
  }

  /** A connected terminal on an account of the right kind, with its module at hand. */
  predicate TerminalReady(cfg: ExecConfig, loaded: bool, t: TerminalScript) {
    && t.connected == Returned(true)
    && t.tradeMode.Returned? && (cfg.mode == Demo ==> t.tradeMode.value != 2)
    && (loaded || t.loadFault.None?)
  }

  /** There is a quote, and the price that a trade of this side pays or gets can be read: the ask or the bid. */
  predicate Priced(action: TradeAction, t: TerminalScript) {
    && t.tick.Returned? && t.tick.value.Some? && t.payloadFault.None?
    && (action == BUY ==> t.tick.value.value.ask.Returned?) && (action != BUY ==> t.tick.value.value.bid.Returned?)
  }

  function SidePrice(action: TradeAction, t: TerminalScript): real
    requires Priced(action, t)
  {
    if action == BUY then t.tick.value.value.ask.value else t.tick.value.value.bid.value
  }

  /** The terminal's check answers with its DONE code. */
  predicate CheckPassed(t: TerminalScript) {
    t.check == Returned(Some(Returned(10009)))
  }

  predicate GatesOpen(cfg: ExecConfig, loaded: bool, d: SupervisorDecision, key: string, t: TerminalScript) {
    MayTrade(cfg, d, key) && TerminalReady(cfg, loaded, t) && Priced(d.proposal.action, t) && CheckPassed(t)
  }

  /** The order that goes out once every gate is open: the reviewed trade, at the quote of its side. */
  function OrderFor(cfg: ExecConfig, d: SupervisorDecision, key: string, t: TerminalScript): Payload
    requires Priced(d.proposal.action, t)
  {
    var p := d.proposal;
    Payload(p.symbol, OrElse(p.volume, cfg.defaultVolume), p.action,
            SidePrice(p.action, t),
            OrElse(p.stopLoss, 0.0), OrElse(p.takeProfit, 0.0), cfg.deviation, cfg.magic,
            if |key| > 8 then key[..8] else key)
  }

  lemma CheckGatesSend(cfg: ExecConfig, p: TradeProposal, req: OrderRequest, price: real, t: TerminalScript)
    ensures Sends(CheckThenSend(cfg, p, req, price, t).calls) ==
              if CheckPassed(t) then [PayloadOf(req, price)] else []
  {
    CheckCalls(cfg, p, req, price, t);
    CheckSends(PayloadOf(req, price), t);
  }

  lemma CheckSends(order: Payload, t: TerminalScript)
    ensures Sends(CallsFromCheck(order, t)) == if CheckPassed(t) then [order] else []
  {
    var calls := CallsFromCheck(order, t);
    assert calls == [OrderCheck(order)] + calls[1..];
    SendsAfter(OrderCheck(order), calls[1..]);
    if CheckPassed(t) {
      var tail := CallsAfterSend(t);
      assert calls[1..] == [OrderSend(order)] + tail;
      SendsAfter(OrderSend(order), tail);
      SendsSkip(tail, []);
      assert tail + [] == tail;
    } else {
      SendsSkip(calls[1..], []);
      assert calls[1..] + [] == calls[1..];
    }
  }

  lemma PriceGatesSend(cfg: ExecConfig, p: TradeProposal, req: OrderRequest, t: TerminalScript)
    requires req.action == p.action
    ensures Sends(PriceThenCheck(cfg, p, req, t).calls) ==
              if Priced(p.action, t) && CheckPassed(t) then [PayloadOf(req, SidePrice(p.action, t))] else []
  {
    var call := SymbolInfoTick(req.symbol);
    var rest := PriceThenCheck(cfg, p, req, t).calls[1..];
    assert PriceThenCheck(cfg, p, req, t).calls == [call] + rest;
    SendsAfter(call, rest);
    if Priced(p.action, t) {
      var price := SidePrice(p.action, t);
      assert rest == CheckThenSend(cfg, p, req, price, t).calls;
      CheckGatesSend(cfg, p, req, price, t);
    } else {
      assert Sends(rest) == [];
    }
  }

  lemma TerminalGatesSend(cfg: ExecConfig, loaded: bool, p: TradeProposal, req: OrderRequest, t: TerminalScript)
    requires req.action == p.action && cfg.hasConnection
    ensures Sends(ExecuteLive(cfg, loaded, p, req, t).calls) ==
              if TerminalReady(cfg, loaded, t) then Sends(PriceThenCheck(cfg, p, req, t).calls) else []
  {
    var opening := if loaded then [IsConnected, AccountInfo] else [IsConnected, AccountInfo, LoadModule];
    var calls := ExecuteLive(cfg, loaded, p, req, t).calls;
    if TerminalReady(cfg, loaded, t) {
      assert calls == opening + PriceThenCheck(cfg, p, req, t).calls;
      SendsSkip(opening, PriceThenCheck(cfg, p, req, t).calls);
    } else {
      SendsSkip(calls, []);
      assert calls + [] == calls;
    }
  }

  /** An attempt sends exactly one order when every gate is open, and none otherwise. */
  lemma SendsIffGatesOpen(cfg: ExecConfig, loaded: bool, d: SupervisorDecision, key: string, t: TerminalScript)
    ensures Sends(Run(cfg, loaded, d, key, t).calls) ==
              if GatesOpen(cfg, loaded, d, key, t) then [OrderFor(cfg, d, key, t)] else []
  {
    if MayTrade(cfg, d, key) {
      var req := ToRequest(cfg, d.proposal, key).value;
      TerminalGatesSend(cfg, loaded, d.proposal, req, t);
      PriceGatesSend(cfg, d.proposal, req, t);
    }
  }

  /** Before it is sent, the identical order was checked, right after the quote was read on a verified account. */
  lemma SendFollowsItsCheck(cfg: ExecConfig, loaded: bool, d: SupervisorDecision, key: string, t: TerminalScript)
    requires GatesOpen(cfg, loaded, d, key, t)
    ensures var order := OrderFor(cfg, d, key, t);
      var opening := if loaded then [IsConnected, AccountInfo] else [IsConnected, AccountInfo, LoadModule];
      opening + [SymbolInfoTick(order.symbol), OrderCheck(order), OrderSend(order)]
        <= Run(cfg, loaded, d, key, t).calls
  {
  }

  // ---- Status soundness --------------------------------------------------------------------------

  /** The broker accepted the order: the reply carries a DONE or DONE_PARTIAL return code. */
  predicate Accepted(t: TerminalScript) {
    && t.send.Returned? && t.send.value.Some?
    && (t.send.value.value.retcode == Returned(10009) || t.send.value.value.retcode == Returned(10010))
  }

  /** The first thing that goes wrong when an accepted reply is read, in the order it is read. */
  function FillFault(reply: SendReply): Option<ExceptionKind> {
    if reply.price.Raised? then Some(reply.price.exc.kind)
    else if reply.order.Raised? then Some(reply.order.exc.kind)
    else if reply.deal.Raised? then Some(reply.deal.exc.kind)
    else if reply.order.value == 0 then Some(ValueError)
    else None
  }

  /** No reply, or a reply whose return code refuses the order. */
  predicate RefusalRead(t: TerminalScript) {
    && t.send.Returned?
    && (t.send.value.Some? ==> t.send.value.value.retcode.Returned? && !Accepted(t))
  }

  /** The exception, if any, that keeps the executor from learning what became of the order. */
  function LostReply(t: TerminalScript): Option<ExceptionKind> {
    if t.send.Raised? then Some(t.send.exc.kind)
    else if t.send.value.Some? && t.send.value.value.retcode.Raised? then Some(t.send.value.value.retcode.exc.kind)
    else if Accepted(t) then FillFault(t.send.value.value)
    else None
  }

  /** The exception, if any, that escapes once the order went out. */
  function EscapeAfterSend(t: TerminalScript): Option<ExceptionKind> {
    if !RefusalRead(t) then LostReply(t)
    else if t.lastErrorFault.Some? then Some(t.lastErrorFault.value.kind)
    else None
  }

  /**
    * What becomes of an order that went out: SUCCESS exactly for an accepted, readable fill, UNKNOWN exactly
    * when a timeout escapes from the send or from reading its reply, and FAILED in every other case.
    */
  lemma StatusAfterSend(cfg: ExecConfig, loaded: bool, d: SupervisorDecision, key: string, t: TerminalScript)
    requires GatesOpen(cfg, loaded, d, key, t)
    ensures var r := Run(cfg, loaded, d, key, t).record;
      && (r.status == Success <==> Accepted(t) && FillFault(t.send.value.value).None?)
      && (r.status == Unknown <==> EscapeAfterSend(t) == Some(TimeoutOrOs))
      && (r.status == Failed <==>
            !(Accepted(t) && FillFault(t.send.value.value).None?) && EscapeAfterSend(t) != Some(TimeoutOrOs))
      && (r.status == Success ==> r.ticket == Some(t.send.value.value.order.value))
  {
    RunIsSend(cfg, loaded, d, key, t);
  }

  /** Once every gate is open, the attempt's result is that of the send. */
  lemma RunIsSend(cfg: ExecConfig, loaded: bool, d: SupervisorDecision, key: string, t: TerminalScript)
    requires GatesOpen(cfg, loaded, d, key, t)
    ensures var p, price := d.proposal, OrderFor(cfg, d, key, t).price;
      var req := ToRequest(cfg, p, key).value;
      var sent := Send(cfg, p, req, price, t).result;
      Run(cfg, loaded, d, key, t).record ==
        if sent.Returned? then sent.value else PlainRecord(cfg, p, key, StatusOf(sent.exc), None)
  {
    var p, price := d.proposal, OrderFor(cfg, d, key, t).price;
    var req := ToRequest(cfg, p, key).value;
    assert CheckThenSend(cfg, p, req, price, t).result == Send(cfg, p, req, price, t).result;
    assert PriceThenCheck(cfg, p, req, t).result == CheckThenSend(cfg, p, req, price, t).result;
    assert ExecuteLive(cfg, loaded, p, req, t).result == PriceThenCheck(cfg, p, req, t).result;
  }

  /** A success record repeats the order's price, the broker's fill (the order's price if it reports none) and ids. */
  lemma SuccessRecord(cfg: ExecConfig, loaded: bool, d: SupervisorDecision, key: string, t: TerminalScript)
    requires GatesOpen(cfg, loaded, d, key, t) && Run(cfg, loaded, d, key, t).record.status == Success
    ensures var r, reply := Run(cfg, loaded, d, key, t).record, t.send.value.value;
      var asked := OrderFor(cfg, d, key, t).price;
      && r.requestedPrice == Some(asked)
      && r.executedPrice == Some(if reply.price.value == 0.0 then asked else reply.price.value)
      && r.slippage == Some(r.executedPrice.value - asked)
      && r.ticket == Some(reply.order.value)
      && r.deal == (if reply.deal.value == 0 then None else Some(reply.deal.value))
  {
    StatusAfterSend(cfg, loaded, d, key, t);
    RunIsSend(cfg, loaded, d, key, t);
  }

  /** A non-dry success outside the gates is impossible, and so is a rejection inside them. */
  lemma NoSuccessWithoutGates(cfg: ExecConfig, loaded: bool, d: SupervisorDecision, key: string, t: TerminalScript)
    requires !GatesOpen(cfg, loaded, d, key, t) && cfg.mode != DryRun
    ensures Run(cfg, loaded, d, key, t).record.status != Success
  {
  }

  /** What each status lets the caller conclude. */
  lemma StatusSound(cfg: ExecConfig, loaded: bool, d: SupervisorDecision, key: string, t: TerminalScript)
    ensures var a := Run(cfg, loaded, d, key, t);
      && (cfg.mode == DryRun || (cfg.mode == Live && !cfg.allowLive) ==> a.calls == [])
      && (a.record.status == Rejected ==> Sends(a.calls) == [])
      && (a.record.status == Success && cfg.mode != DryRun ==>
            |Sends(a.calls)| == 1 && Accepted(t) && a.record.ticket.Some? && a.record.ticket.value != 0)
      && (Sends(a.calls) != [] && t.send.Raised? && t.send.exc.kind == TimeoutOrOs ==> a.record.status == Unknown)
      && (a.record.status == Failed ==>
            || Sends(a.calls) == [] || RefusalRead(t)
            || (LostReply(t).Some? && LostReply(t) != Some(TimeoutOrOs)))
      && RecordNames(a.record, cfg, d.proposal, key)
  {
    SendsIffGatesOpen(cfg, loaded, d, key, t);
    if GatesOpen(cfg, loaded, d, key, t) {
      StatusAfterSend(cfg, loaded, d, key, t);
    } else if cfg.mode != DryRun {
      NoSuccessWithoutGates(cfg, loaded, d, key, t);
    }
    RecordNamesTrade(cfg, loaded, d, key, t);
  }

  /** The record is about this very trade and key. */
  predicate RecordNames(r: ExecutionRecord, cfg: ExecConfig, p: TradeProposal, key: string) {
    && r.clientId == key && r.symbol == p.symbol && r.action == p.action
    && r.volume == OrElse(p.volume, cfg.defaultVolume)
  }

  lemma SendNames(cfg: ExecConfig, p: TradeProposal, req: OrderRequest, price: real, t: TerminalScript)
    requires ToRequest(cfg, p, req.clientId) == Returned(req)
    ensures var out := CheckThenSend(cfg, p, req, price, t);
      out.result.Returned? ==> RecordNames(out.result.value, cfg, p, req.clientId)
  {
  }

  lemma LiveNames(cfg: ExecConfig, loaded: bool, p: TradeProposal, req: OrderRequest, t: TerminalScript)
    requires ToRequest(cfg, p, req.clientId) == Returned(req)
    ensures var out := ExecuteLive(cfg, loaded, p, req, t);
      out.result.Returned? ==> RecordNames(out.result.value, cfg, p, req.clientId)
  {
    if Priced(p.action, t) {
      SendNames(cfg, p, req, SidePrice(p.action, t), t);
    }
    var priced := PriceThenCheck(cfg, p, req, t);
    assert priced.result.Returned? ==> RecordNames(priced.result.value, cfg, p, req.clientId);
  }

  lemma RecordNamesTrade(cfg: ExecConfig, loaded: bool, d: SupervisorDecision, key: string, t: TerminalScript)
    ensures RecordNames(Run(cfg, loaded, d, key, t).record, cfg, d.proposal, key)
  {
    if MayTrade(cfg, d, key) {
      LiveNames(cfg, loaded, d.proposal, ToRequest(cfg, d.proposal, key).value, t);
    }
  }

  /**
    * FAILED is documented as certain, that is, as proof that no order was accepted. It is certain unless an order
    * went out and no refusal of it was read. That happens exactly when every gate is open and anything but a
    * timeout escapes from the send, from its return code or from an accepted fill; in particular, an accepted
    * order ends FAILED exactly when its reply carries order number 0 or a field that cannot be read.
    */
  lemma FailedUncertainIff(cfg: ExecConfig, loaded: bool, d: SupervisorDecision, key: string, t: TerminalScript)
    ensures var a := Run(cfg, loaded, d, key, t);
      a.record.status == Failed && Sends(a.calls) != [] && !RefusalRead(t) <==>
        GatesOpen(cfg, loaded, d, key, t) && LostReply(t).Some? && LostReply(t) != Some(TimeoutOrOs)
    ensures GatesOpen(cfg, loaded, d, key, t) && Accepted(t) ==>
      (Run(cfg, loaded, d, key, t).record.status == Failed <==>
        FillFault(t.send.value.value).Some? && FillFault(t.send.value.value) != Some(TimeoutOrOs))
  {
    SendsIffGatesOpen(cfg, loaded, d, key, t);
    if GatesOpen(cfg, loaded, d, key, t) {
      StatusAfterSend(cfg, loaded, d, key, t);
    }
  }

  /** A terminal on which every gate is open, and whose send answers `send`. */
  function OpenTerminal(send: Answer<Option<SendReply>>): TerminalScript {
    TerminalScript(Returned(true), Returned(0), None, Returned(Some(Quote(Returned(1.0), Returned(1.0)))),
                   None, Returned(Some(Returned(RETCODE_DONE))), None, send, Returned(true))
  }

  const DEMO_EXECUTOR: ExecConfig := ExecConfig(Demo, false, true, 0.01, 0, 20)

  lemma OpenTerminalIsOpen(d: SupervisorDecision, send: Answer<Option<SendReply>>)
    requires d.approved && d.proposal.action != HOLD
    ensures GatesOpen(DEMO_EXECUTOR, true, d, "id", OpenTerminal(send))
  {
    assert !IsSpace("id"[0]) && !Blank("id");
  }

  /** A concrete terminal that fills any given order and still leaves a FAILED record. */
  lemma FailedYetAccepted(d: SupervisorDecision)
    requires d.approved && d.proposal.action != HOLD
    ensures exists t: TerminalScript :: exists cfg: ExecConfig ::
      Accepted(t) && Sends(Run(cfg, true, d, "id", t).calls) != []
      && Run(cfg, true, d, "id", t).record.status == Failed
  {
    var reply := SendReply(Returned(RETCODE_DONE), Returned(1.0), Returned(0), Returned(7));
    var cfg, t := DEMO_EXECUTOR, OpenTerminal(Returned(Some(reply)));
    OpenTerminalIsOpen(d, Returned(Some(reply)));
    SendsIffGatesOpen(cfg, true, d, "id", t);
    FailedUncertainIff(cfg, true, d, "id", t);
    assert Accepted(t) && Sends(Run(cfg, true, d, "id", t).calls) != []
           && Run(cfg, true, d, "id", t).record.status == Failed;
  }

  /** A concrete terminal whose send breaks off: the order went out, its fate is unknown, the record is FAILED. */
  lemma FailedYetSent(d: SupervisorDecision)
    requires d.approved && d.proposal.action != HOLD
    ensures exists t: TerminalScript :: exists cfg: ExecConfig ::
      t.send.Raised? && Sends(Run(cfg, true, d, "id", t).calls) != []
      && Run(cfg, true, d, "id", t).record.status == Failed
  {
    var broken := Raised(Exception(OtherError, "pipe"));
    var cfg, t := DEMO_EXECUTOR, OpenTerminal(broken);
    OpenTerminalIsOpen(d, broken);
    SendsIffGatesOpen(cfg, true, d, "id", t);
    FailedUncertainIff(cfg, true, d, "id", t);
    assert t.send.Raised? && Sends(Run(cfg, true, d, "id", t).calls) != []
           && Run(cfg, true, d, "id", t).record.status == Failed;
  }

  /**
    * The risk rules count a missing volume as 0 but the executor sends its default, so the volume that was
    * reviewed is the volume that is sent exactly when the proposal names one.
    */
  lemma SentVolumeIsReviewedIff(cfg: ExecConfig, d: SupervisorDecision, key: string, t: TerminalScript)
    requires Priced(d.proposal.action, t)
    ensures OrderFor(cfg, d, key, t).volume == OrElse(d.proposal.volume, 0.0) <==> d.proposal.volume.Some?
  {
  }

  // ---- Every attempt, sent or not ----------------------------------------------------------------

  /** The connected terminal's account cannot be verified, or is a real one in demo mode. */
  predicate AccountRefused(cfg: ExecConfig, t: TerminalScript) {
    t.connected == Returned(true) && (t.tradeMode.Raised? || (cfg.mode == Demo && t.tradeMode.value == 2))
  }

  function KindOf<T>(a: Answer<T>): Option<ExceptionKind> {
    if a.Raised? then Some(a.exc.kind) else None
  }

  function FaultKind(fault: Option<Exception>): Option<ExceptionKind> {
    if fault.Some? then Some(fault.value.kind) else None
  }

  /** The exception, if any, that ends an attempt on an accepted account before an order goes out. */
  function EscapeBeforeSend(loaded: bool, action: TradeAction, t: TerminalScript): Option<ExceptionKind> {
    if t.connected.Raised? then KindOf(t.connected)
    else if !t.connected.value then Some(NotConnected)
    else if !loaded && t.loadFault.Some? then FaultKind(t.loadFault)
    else if t.tick.Raised? then KindOf(t.tick)
    else if t.tick.value.None? then None
    else if action == BUY && t.tick.value.value.ask.Raised? then KindOf(t.tick.value.value.ask)
    else if action != BUY && t.tick.value.value.bid.Raised? then KindOf(t.tick.value.value.bid)
    else if t.payloadFault.Some? then FaultKind(t.payloadFault)
    else if t.check.Raised? then KindOf(t.check)
    else if t.check.value.Some? && t.check.value.value.Raised? then KindOf(t.check.value.value)
    else if CheckPassed(t) then None
    else FaultKind(t.lastErrorFault)
  }

  /** What an attempt that trades comes to when its check does not pass. */
  lemma CheckStops(cfg: ExecConfig, p: TradeProposal, req: OrderRequest, price: real, t: TerminalScript)
    requires !CheckPassed(t)
    ensures var out, escape := CheckThenSend(cfg, p, req, price, t),
        if t.check.Raised? then KindOf(t.check)
        else if t.check.value.Some? && t.check.value.value.Raised? then KindOf(t.check.value.value)
        else FaultKind(t.lastErrorFault);
      && KindOf(out.result) == escape
      && (escape.None? ==> out.result.value == PlainRecord(cfg, p, req.clientId, Failed, Some(price)))
  {
  }

  lemma PriceStops(cfg: ExecConfig, p: TradeProposal, req: OrderRequest, t: TerminalScript)
    requires req.action == p.action && !(Priced(p.action, t) && CheckPassed(t))
    requires t.connected == Returned(true)
    ensures var out := PriceThenCheck(cfg, p, req, t);
      && KindOf(out.result) == EscapeBeforeSend(true, p.action, t)
      && (out.result.Returned? ==>
            out.result.value == PlainRecord(cfg, p, req.clientId, Failed,
                                            if Priced(p.action, t) then Some(SidePrice(p.action, t)) else None))
  {
    if Priced(p.action, t) {
      CheckStops(cfg, p, req, SidePrice(p.action, t), t);
    }
  }

  lemma TerminalStops(cfg: ExecConfig, loaded: bool, p: TradeProposal, req: OrderRequest, t: TerminalScript)
    requires req.action == p.action && cfg.hasConnection
    requires !(TerminalReady(cfg, loaded, t) && Priced(p.action, t) && CheckPassed(t))
    ensures var out := ExecuteLive(cfg, loaded, p, req, t);
      if AccountRefused(cfg, t) then out.result == Returned(PlainRecord(cfg, p, req.clientId, Rejected, None))
      else
        && KindOf(out.result) == EscapeBeforeSend(loaded, p.action, t)
        && (out.result.Returned? ==>
              out.result.value == PlainRecord(cfg, p, req.clientId, Failed,
                                              if Priced(p.action, t) then Some(SidePrice(p.action, t)) else None))
  {
    if TerminalReady(cfg, loaded, t) {
      PriceStops(cfg, p, req, t);
    }
  }

  /** What is left of an attempt that sends nothing. */
  lemma UnsentRecord(cfg: ExecConfig, loaded: bool, d: SupervisorDecision, key: string, t: TerminalScript)
    requires cfg.mode != DryRun && !GatesOpen(cfg, loaded, d, key, t)
    ensures var r, p := Run(cfg, loaded, d, key, t).record, d.proposal;
      if !MayTrade(cfg, d, key) || AccountRefused(cfg, t) then r == PlainRecord(cfg, p, key, Rejected, None)
      else
        var escape := EscapeBeforeSend(loaded, p.action, t);
        if escape == Some(TimeoutOrOs) then r == PlainRecord(cfg, p, key, Unknown, None)
        else if escape.Some? then r == PlainRecord(cfg, p, key, Failed, None)
        else r == PlainRecord(cfg, p, key, Failed, if Priced(p.action, t) then Some(SidePrice(p.action, t)) else None)
  {
    if MayTrade(cfg, d, key) {
      TerminalStops(cfg, loaded, d.proposal, ToRequest(cfg, d.proposal, key).value, t);
    }
  }

  /**
    * The status of every attempt, from its inputs and the terminal's answers alone. A dry run succeeds exactly for
    * an approved trade with a key. Otherwise REJECTED means that the trade was not allowed or the account refused,
    * UNKNOWN that a timeout escaped, SUCCESS that an order was accepted and its fill read; all else is FAILED.
    */
  lemma AttemptStatus(cfg: ExecConfig, loaded: bool, d: SupervisorDecision, key: string, t: TerminalScript)
    ensures var status := Run(cfg, loaded, d, key, t).record.status;
      if cfg.mode == DryRun then
        status == if d.approved && d.proposal.action != HOLD && !Blank(key) then Success else Rejected
      else
        var open := GatesOpen(cfg, loaded, d, key, t);
        var escape := if open then EscapeAfterSend(t) else EscapeBeforeSend(loaded, d.proposal.action, t);
        status == if !MayTrade(cfg, d, key) || AccountRefused(cfg, t) then Rejected
                  else if escape == Some(TimeoutOrOs) then Unknown
                  else if open && Accepted(t) && FillFault(t.send.value.value).None? then Success
                  else Failed
  {
    if cfg.mode != DryRun {
      if GatesOpen(cfg, loaded, d, key, t) {
        StatusAfterSend(cfg, loaded, d, key, t);
      } else {
        UnsentRecord(cfg, loaded, d, key, t);
      }
    }
  }

  /** The check did not pass or, after a passed check, the reply to the send refused the order. */
  predicate RefusedOnce(t: TerminalScript) {
    if CheckPassed(t) then RefusalRead(t)
    else t.check.Returned? && (t.check.value.Some? ==> t.check.value.value.Returned?)
  }

  /** Only a fill leaves ids, a price and a slippage; an asked price is that of the order's side. */
  lemma RecordShape(cfg: ExecConfig, loaded: bool, d: SupervisorDecision, key: string, t: TerminalScript)
    ensures var r := Run(cfg, loaded, d, key, t).record;
      && r.mode == cfg.mode
      && (cfg.mode == DryRun || r.status != Success ==>
            r.ticket.None? && r.deal.None? && r.executedPrice.None? && r.slippage.None?)
      && (r.requestedPrice.Some? <==>
            && MayTrade(cfg, d, key) && TerminalReady(cfg, loaded, t) && Priced(d.proposal.action, t)
            && (r.status == Success || (RefusedOnce(t) && t.lastErrorFault.None?)))
      && (r.requestedPrice.Some? ==> r.requestedPrice.value == SidePrice(d.proposal.action, t))
  {
    if cfg.mode != DryRun {
      if GatesOpen(cfg, loaded, d, key, t) {
        RunIsSend(cfg, loaded, d, key, t);
        AttemptStatus(cfg, loaded, d, key, t);
      } else {
        UnsentRecord(cfg, loaded, d, key, t);
      }
    }
  }

  /** The calls that follow a send: the last error of a refusal, or the position of a readable positive ticket. */
  function CallsAfterSend(t: TerminalScript): seq<TerminalCall> {
    if RefusalRead(t) then [LastError]
    else if Accepted(t) && t.send.value.value.price.Returned? && t.send.value.value.order.Returned?
            && t.send.value.value.order.value > 0
    then [PositionsGet(t.send.value.value.order.value)]
    else []
  }

  /** The calls from the check of `order` on. */
  function CallsFromCheck(order: Payload, t: TerminalScript): seq<TerminalCall> {
    [OrderCheck(order)]
    + (if CheckPassed(t) then [OrderSend(order)] + CallsAfterSend(t)
       else if t.check.Returned? && (t.check.value.Some? ==> t.check.value.value.Returned?) then [LastError]
       else [])
  }

  /** The calls from the quote on. */
  function CallsFromTick(cfg: ExecConfig, d: SupervisorDecision, key: string, t: TerminalScript): seq<TerminalCall> {
    [SymbolInfoTick(d.proposal.symbol)]
    + (if Priced(d.proposal.action, t) then CallsFromCheck(OrderFor(cfg, d, key, t), t) else [])
  }

  /** The calls of an attempt that may trade. */
  function CallsOf(cfg: ExecConfig, loaded: bool, d: SupervisorDecision, key: string, t: TerminalScript)
    : seq<TerminalCall>
  {
    [IsConnected]
    + (if t.connected != Returned(true) then []
       else if AccountRefused(cfg, t) then [AccountInfo]
       else if loaded then [AccountInfo] + CallsFromTick(cfg, d, key, t)
       else [AccountInfo, LoadModule] + (if t.loadFault.None? then CallsFromTick(cfg, d, key, t) else []))
  }

  lemma SendCalls(cfg: ExecConfig, p: TradeProposal, req: OrderRequest, price: real, t: TerminalScript)
    ensures Send(cfg, p, req, price, t).calls == [OrderSend(PayloadOf(req, price))] + CallsAfterSend(t)
  {
  }

  lemma CheckCalls(cfg: ExecConfig, p: TradeProposal, req: OrderRequest, price: real, t: TerminalScript)
    ensures CheckThenSend(cfg, p, req, price, t).calls == CallsFromCheck(PayloadOf(req, price), t)
  {
    if CheckPassed(t) {
      SendCalls(cfg, p, req, price, t);
    }
  }

  lemma TickCalls(cfg: ExecConfig, d: SupervisorDecision, key: string, req: OrderRequest, t: TerminalScript)
    requires ToRequest(cfg, d.proposal, key) == Returned(req)
    ensures PriceThenCheck(cfg, d.proposal, req, t).calls == CallsFromTick(cfg, d, key, t)
  {
    if Priced(d.proposal.action, t) {
      CheckCalls(cfg, d.proposal, req, SidePrice(d.proposal.action, t), t);
    }
  }

  /** Exactly which calls every attempt makes, in order. */
  lemma AttemptCalls(cfg: ExecConfig, loaded: bool, d: SupervisorDecision, key: string, t: TerminalScript)
    ensures Run(cfg, loaded, d, key, t).calls == if MayTrade(cfg, d, key) then CallsOf(cfg, loaded, d, key, t) else []
  {
    if MayTrade(cfg, d, key) {
      TickCalls(cfg, d, key, ToRequest(cfg, d.proposal, key).value, t);
    }
  }

  /** The module is at hand after an attempt exactly if it was before, or the attempt got past the account with it. */
  lemma AttemptLoads(cfg: ExecConfig, loaded: bool, d: SupervisorDecision, key: string, t: TerminalScript)
    ensures LoadedAfter(loaded, Run(cfg, loaded, d, key, t).calls, t)
        <==> loaded || (MayTrade(cfg, d, key) && TerminalReady(cfg, loaded, t))
  {
    AttemptCalls(cfg, loaded, d, key, t);
    if MayTrade(cfg, d, key) && !loaded {
      LoadsModule(cfg, d, key, t);
    }
  }

  lemma LoadsModule(cfg: ExecConfig, d: SupervisorDecision, key: string, t: TerminalScript)
    ensures LoadModule in CallsOf(cfg, false, d, key, t) <==> t.connected == Returned(true) && !AccountRefused(cfg, t)
  {
    var calls := CallsOf(cfg, false, d, key, t);
    if t.connected == Returned(true) && !AccountRefused(cfg, t) {
      assert calls[2] == LoadModule;
    }
  }

  // ---- At-most-once submission over any run of calls ---------------------------------------------

  /** A call of the executor; `freshId` is the id it generates if the caller names none. */
  datatype ExecCall =
    ExecCall(decision: SupervisorDecision, clientId: Option<string>, freshId: string, t: TerminalScript)

  /** The id that identifies an order to its caller: the one it named, else the generated one. */
  function OrderId(call: ExecCall): string {
    match call.clientId
    case Some(id) => if |id| > 0 then id else call.freshId
    case None => call.freshId
  }

  /** One call: the new state and the record it returns. */
  function CallExecutor(cfg: ExecConfig, st: ExecState, c: ExecCall): (ExecState, ExecutionRecord) {
    Execute(cfg, st, c.decision, KeyOf(c.clientId, c.freshId), c.t)
  }

  function StateAfter(cfg: ExecConfig, start: ExecState, calls: seq<ExecCall>): ExecState {
    if calls == [] then start else
      var n := |calls| - 1;
      CallExecutor(cfg, StateAfter(cfg, start, calls[..n]), calls[n]).0
  }

  /** The record the `k`-th call returns. */
  function RecordAt(cfg: ExecConfig, start: ExecState, calls: seq<ExecCall>, k: nat): ExecutionRecord
    requires k < |calls|
  {
    CallExecutor(cfg, StateAfter(cfg, start, calls[..k]), calls[k]).1
  }

  function Fresh(moduleGiven: bool): ExecState {
    ExecState(map[], [], moduleGiven)
  }

  /** The client id of every order ever sent, in order. */
  function SendLog(attempts: seq<Attempt>): seq<string> {
    if attempts == [] then [] else
      var a := attempts[|attempts| - 1];
      SendLog(attempts[..|attempts| - 1]) + seq(|Sends(a.calls)|, _ => a.key)
  }

  /** Each key was attempted once, and its record is in the ledger. */
  predicate Remembered(ledger: map<string, ExecutionRecord>, attempts: seq<Attempt>) {
    && |ledger| == |attempts|
    && forall i | 0 <= i < |attempts| ::
         attempts[i].key in ledger && ledger[attempts[i].key] == attempts[i].record
  }

  /** No key was sent twice, only known keys were sent, and at most one order per attempt. */
  predicate SentOnce(ledger: map<string, ExecutionRecord>, log: seq<string>, limit: nat) {
    Distinct(log) && |log| <= limit && forall i | 0 <= i < |log| :: log[i] in ledger
  }

  predicate Idempotent(st: ExecState) {
    Remembered(st.ledger, st.attempts) && SentOnce(st.ledger, SendLog(st.attempts), |st.attempts|)
  }

  lemma IdempotentStep(st: ExecState, a: Attempt, after: ExecState)
    requires Idempotent(st) && a.key !in st.ledger && |Sends(a.calls)| <= 1
    requires after.ledger == st.ledger[a.key := a.record] && after.attempts == st.attempts + [a]
    ensures Idempotent(after)
  {
  }

  lemma ExecuteKeepsIdempotence(cfg: ExecConfig, st: ExecState, d: SupervisorDecision, key: string, t: TerminalScript)
    requires Idempotent(st)
    ensures Idempotent(Execute(cfg, st, d, key, t).0)
  {
    if key !in st.ledger {
      var a := NewAttempt(cfg, st, d, key, t);
      IdempotentStep(st, a, Execute(cfg, st, d, key, t).0);
    }
  }

  /** The attempt that a new key makes. */
  lemma NewAttempt(cfg: ExecConfig, st: ExecState, d: SupervisorDecision, key: string, t: TerminalScript)
    returns (a: Attempt)
    requires key !in st.ledger
    ensures a.key == key && |Sends(a.calls)| <= 1
    ensures var after := Execute(cfg, st, d, key, t).0;
      after.ledger == st.ledger[key := a.record] && after.attempts == st.attempts + [a]
  {
    a := Run(cfg, st.loaded, d, key, t);
    SendsIffGatesOpen(cfg, st.loaded, d, key, t);
  }

  /** Over any calls with any terminal: no client id is ever sent twice, and sends never outnumber ledger keys. */
  lemma {:induction false} AtMostOnce(cfg: ExecConfig, moduleGiven: bool, calls: seq<ExecCall>)
    ensures Idempotent(StateAfter(cfg, Fresh(moduleGiven), calls))
  {
    if calls != [] {
      var n := |calls| - 1;
      AtMostOnce(cfg, moduleGiven, calls[..n]);
      ExecuteKeepsIdempotence(cfg, StateAfter(cfg, Fresh(moduleGiven), calls[..n]),
                              calls[n].decision, KeyOf(calls[n].clientId, calls[n].freshId), calls[n].t);
    }
  }

  /** The ledger only grows: a call never changes or drops an earlier key's record. */
  lemma {:induction false} LedgerGrows(cfg: ExecConfig, start: ExecState, calls: seq<ExecCall>, k: nat, key: string)
    requires k <= |calls| && key in StateAfter(cfg, start, calls[..k]).ledger
    ensures var after := StateAfter(cfg, start, calls);
      key in after.ledger && after.ledger[key] == StateAfter(cfg, start, calls[..k]).ledger[key]
  {
    if k == |calls| {
      assert calls[..k] == calls;
    } else {
      var n := |calls| - 1;
      assert calls[..n][..k] == calls[..k];
      LedgerGrows(cfg, start, calls[..n], k, key);
    }
  }

  /** A call leaves its record in the ledger, under the id by which its caller knows the order. */
  lemma CallIsRemembered(cfg: ExecConfig, st: ExecState, c: ExecCall)
    ensures var (after, record) := CallExecutor(cfg, st, c);
      && OrderId(c) in after.ledger && after.ledger[OrderId(c)] == record
      && (OrderId(c) in st.ledger ==> after == st && record == st.ledger[OrderId(c)])
  {
  }

  /**
    * Idempotency by client id: every later call about the same order, whatever its decision, its terminal and
    * its generated id, returns the first record, whatever its status, and changes and sends nothing.
    */
  lemma RepliesAreReplayed(cfg: ExecConfig, start: ExecState, calls: seq<ExecCall>, i: nat, j: nat)
    requires i < j < |calls| && OrderId(calls[i]) == OrderId(calls[j])
    ensures RecordAt(cfg, start, calls, j) == RecordAt(cfg, start, calls, i)
    ensures StateAfter(cfg, start, calls[..j + 1]) == StateAfter(cfg, start, calls[..j])
  {
    var key := OrderId(calls[i]);
    CallIsKept(cfg, start, calls, i);
    assert calls[..j][..i + 1] == calls[..i + 1];
    LedgerGrows(cfg, start, calls[..j], i + 1, key);
    CallIsRemembered(cfg, StateAfter(cfg, start, calls[..j]), calls[j]);
    assert calls[..j + 1][..j] == calls[..j] && calls[..j + 1][j] == calls[j];
  }

  lemma CallIsKept(cfg: ExecConfig, start: ExecState, calls: seq<ExecCall>, i: nat)
    requires i < |calls|
    ensures var ledger := StateAfter(cfg, start, calls[..i + 1]).ledger;
      OrderId(calls[i]) in ledger && ledger[OrderId(calls[i])] == RecordAt(cfg, start, calls, i)
  {
    CallIsRemembered(cfg, StateAfter(cfg, start, calls[..i]), calls[i]);
    assert calls[..i + 1][..i] == calls[..i] && calls[..i + 1][i] == calls[i];
  }

  /** Every record of the ledger carries the id under which it is kept. */
  predicate Labelled(ledger: map<string, ExecutionRecord>) {
    forall key | key in ledger :: ledger[key].clientId == key
  }

  lemma {:induction false} LedgerIsLabelled(cfg: ExecConfig, moduleGiven: bool, calls: seq<ExecCall>)
    ensures Labelled(StateAfter(cfg, Fresh(moduleGiven), calls).ledger)
  {
    if calls != [] {
      var n := |calls| - 1;
      LedgerIsLabelled(cfg, moduleGiven, calls[..n]);
      var st := StateAfter(cfg, Fresh(moduleGiven), calls[..n]);
      RecordNamesTrade(cfg, st.loaded, calls[n].decision, KeyOf(calls[n].clientId, calls[n].freshId), calls[n].t);
    }
  }

  /** Whatever happened before, the record that a call returns carries the id by which its caller knows the order. */
  lemma RecordCarriesId(cfg: ExecConfig, moduleGiven: bool, calls: seq<ExecCall>, k: nat)
    requires k < |calls|
    ensures RecordAt(cfg, Fresh(moduleGiven), calls, k).clientId == OrderId(calls[k])
  {
    LedgerIsLabelled(cfg, moduleGiven, calls[..k + 1]);
    CallIsRemembered(cfg, StateAfter(cfg, Fresh(moduleGiven), calls[..k]), calls[k]);
    assert calls[..k + 1][..k] == calls[..k] && calls[..k + 1][k] == calls[k];
  }
}
