/** The MT5 executor: an idempotency ledger around a terminal that may answer anything, or raise. */
module Executor {
  import opened Common
  import opened Planner
  import opened Risk
  import opened SupervisorBoundary

  datatype ExecutionMode = DryRun | Demo | Live

  datatype ExecutionStatus = Success | Rejected | Failed | Unknown

  const TRADE_MODE_REAL := 2
  const RETCODE_DONE := 10009
  const RETCODE_DONE_PARTIAL := 10010

  datatype ExecFields = ExecConfig(
    mode: ExecutionMode, allowLive: bool, hasConnection: bool, defaultVolume: real, magic: int, deviation: int)

  /** The constructor refuses a default volume that is not positive. */
  type ExecConfig = c: ExecFields | c.defaultVolume > 0.0 witness ExecConfig(DryRun, false, false, 0.01, 0, 20)

  datatype OrderRequest = OrderRequest(
    symbol: string, action: TradeAction, volume: real, stopLoss: real, takeProfit: real,
    magic: int, deviation: int, clientId: string)

  datatype ExecutionRecord = ExecutionRecord(
    clientId: string, symbol: string, action: TradeAction, volume: real,
    status: ExecutionStatus, mode: ExecutionMode, ticket: Option<int>, deal: Option<int>,
    executedPrice: Option<real>, requestedPrice: Option<real>, slippage: Option<real>)

  /** The order dictionary handed to the terminal; `comment` is the start of the client id. */
  datatype Payload = Payload(
    symbol: string, volume: real, action: TradeAction, price: real, stopLoss: real, takeProfit: real,
    deviation: int, magic: int, comment: string)

  /** The calls an attempt makes on the connection and on the terminal module. */
  datatype TerminalCall =
    | IsConnected | AccountInfo | LoadModule | SymbolInfoTick(symbol: string)
    | OrderCheck(payload: Payload) | OrderSend(payload: Payload) | LastError | PositionsGet(ticket: int)

  /** Prices after `float()`, which may itself raise. */
  datatype Quote = Quote(ask: Answer<real>, bid: Answer<real>)

  /** The reply to `order_send` after `int()` and `float()`; a missing number reads as 0. */
  datatype SendReply = SendReply(retcode: Answer<int>, price: Answer<real>, order: Answer<int>, deal: Answer<int>)

  /** How the terminal behaves during one attempt: any answer to any call. */
  datatype TerminalScript = TerminalScript(
    connected: Answer<bool>, tradeMode: Answer<int>, loadFault: Option<Exception>,
    tick: Answer<Option<Quote>>, payloadFault: Option<Exception>, check: Answer<Option<Answer<int>>>,
    lastErrorFault: Option<Exception>, send: Answer<Option<SendReply>>, positions: Answer<bool>)

  // ---- Specification of one attempt --------------------------------------------------------------

  /** What an attempt comes to: a record or an exception, and the calls it made. */
  datatype Outcome = Outcome(result: Answer<ExecutionRecord>, calls: seq<TerminalCall>) {
    function After(earlier: seq<TerminalCall>): Outcome {
      Outcome(result, earlier + calls)
    }
  }

  /** A record that reports anything but a fill. */
  function PlainRecord(cfg: ExecConfig, p: TradeProposal, key: string, status: ExecutionStatus, price: Option<real>)
    : ExecutionRecord
  {
    ExecutionRecord(key, p.symbol, p.action, OrElse(p.volume, cfg.defaultVolume), status, cfg.mode,
                    None, None, None, price, None)
  }

  function NonZero(n: int): Option<int> {
    if n == 0 then None else Some(n)
  }

  /** The success record's constructor raises without a ticket. */
  function FillRecord(cfg: ExecConfig, req: OrderRequest, price: real, executed: real, order: int, deal: int)
    : Answer<ExecutionRecord>
  {
    var _ :- Check(order != 0);
    Returned(ExecutionRecord(req.clientId, req.symbol, req.action, req.volume, Success, cfg.mode,
                             NonZero(order), NonZero(deal), Some(executed), Some(price), Some(executed - price)))
  }

  /** A valid proposal already has a symbol, and a positive volume if any. */
  function ToRequest(cfg: ExecConfig, p: TradeProposal, key: string): (r: Answer<OrderRequest>)
    ensures r.Returned? <==> p.IsActionable() && !Blank(key)
    ensures r.Returned? ==>
      var req := r.value;
      && req.volume > 0.0 && (p.volume.Some? ==> p.volume == Some(req.volume))
      && req.symbol == p.symbol && req.action == p.action && req.clientId == key
      && (if p.stopLoss.Some? then p.stopLoss == Some(req.stopLoss) else req.stopLoss == 0.0)
      && (if p.takeProfit.Some? then p.takeProfit == Some(req.takeProfit) else req.takeProfit == 0.0)
  {
    var volume := OrElse(p.volume, cfg.defaultVolume);
    var _ :- Check(p.action != HOLD);
    var _ :- Check(!Blank(key));
    Returned(OrderRequest(p.symbol, p.action, volume, OrElse(p.stopLoss, 0.0), OrElse(p.takeProfit, 0.0),
                          cfg.magic, cfg.deviation, key))
  }

  function PayloadOf(req: OrderRequest, price: real): Payload {
    Payload(req.symbol, req.volume, req.action, price, req.stopLoss, req.takeProfit, req.deviation, req.magic,
            if |req.clientId| > 8 then req.clientId[..8] else req.clientId)
  }

  /** `checked is not None and int(retcode) == DONE` */
  function CheckPasses(reply: Option<Answer<int>>): Answer<bool> {
    if reply.None? then Returned(false) else
      var retcode :- reply.value;
      Returned(retcode == RETCODE_DONE)
  }

  function SendAccepted(reply: Option<SendReply>): Answer<bool> {
    if reply.None? then Returned(false) else
      var retcode :- reply.value.retcode;
      Returned(retcode == RETCODE_DONE || retcode == RETCODE_DONE_PARTIAL)
  }

  /** The terminal said no: its last error is read for the message, then a FAILED record is made. */
  function Refused(cfg: ExecConfig, p: TradeProposal, key: string, price: real, t: TerminalScript): Outcome {
    Outcome(
      var _ :- Call(t.lastErrorFault);
      Returned(PlainRecord(cfg, p, key, Failed, Some(price))),
      [LastError])
  }

  /** Reading an accepted reply; the position is looked up only for a positive order ticket. */
  function ReadFill(cfg: ExecConfig, req: OrderRequest, price: real, reply: SendReply): Outcome {
    if reply.price.Raised? then Outcome(reply.price.PropagateFailure(), [])
    else if reply.order.Raised? then Outcome(reply.order.PropagateFailure(), [])
    else
      var executed := if reply.price.value == 0.0 then price else reply.price.value;
      var order := reply.order.value;
      Outcome(
        var deal :- reply.deal;
        FillRecord(cfg, req, price, executed, order, deal),
        if order > 0 then [PositionsGet(order)] else [])
  }

  function Send(cfg: ExecConfig, p: TradeProposal, req: OrderRequest, price: real, t: TerminalScript): Outcome {
    var out :=
      if t.send.Raised? then Outcome(t.send.PropagateFailure(), []) else
      var accepted := SendAccepted(t.send.value);
      if accepted.Raised? then Outcome(accepted.PropagateFailure(), [])
      else if !accepted.value then Refused(cfg, p, req.clientId, price, t)
      else ReadFill(cfg, req, price, t.send.value.value);
    out.After([OrderSend(PayloadOf(req, price))])
  }

  function CheckThenSend(cfg: ExecConfig, p: TradeProposal, req: OrderRequest, price: real, t: TerminalScript)
    : Outcome
  {
    var out :=
      if t.check.Raised? then Outcome(t.check.PropagateFailure(), []) else
      var passes := CheckPasses(t.check.value);
      if passes.Raised? then Outcome(passes.PropagateFailure(), [])
      else if !passes.value then Refused(cfg, p, req.clientId, price, t)
      else Send(cfg, p, req, price, t);
    out.After([OrderCheck(PayloadOf(req, price))])
  }

  function PriceFor(action: TradeAction, quote: Quote): Answer<real> {
    if action == BUY then quote.ask else quote.bid
  }

  function PriceThenCheck(cfg: ExecConfig, p: TradeProposal, req: OrderRequest, t: TerminalScript): Outcome {
    var out :=
      if t.tick.Raised? then Outcome(t.tick.PropagateFailure(), [])
      else if t.tick.value.None? then Outcome(Returned(PlainRecord(cfg, p, req.clientId, Failed, None)), [])
      else
        var price := PriceFor(req.action, t.tick.value.value);
        if price.Raised? then Outcome(price.PropagateFailure(), [])
        else if t.payloadFault.Some? then Outcome(Raised(t.payloadFault.value), [])
        else CheckThenSend(cfg, p, req, price.value, t);
    out.After([SymbolInfoTick(req.symbol)])
  }

  function RejectedRecord(cfg: ExecConfig, p: TradeProposal, key: string): Answer<ExecutionRecord> {
    Returned(PlainRecord(cfg, p, key, Rejected, None))
  }

  function ExecuteLive(cfg: ExecConfig, loaded: bool, p: TradeProposal, req: OrderRequest, t: TerminalScript)
    : Outcome
  {
    if !cfg.hasConnection then Outcome(RejectedRecord(cfg, p, req.clientId), [])
    else if t.connected.Raised? then Outcome(t.connected.PropagateFailure(), [IsConnected])
    else if !t.connected.value then
      Outcome(Raised(Exception(NotConnected, "offline")), [IsConnected])
    else if t.tradeMode.Raised? || (cfg.mode == Demo && t.tradeMode.value == TRADE_MODE_REAL) then
      Outcome(RejectedRecord(cfg, p, req.clientId), [IsConnected, AccountInfo])
    else if loaded then PriceThenCheck(cfg, p, req, t).After([IsConnected, AccountInfo])
    else if t.loadFault.Some? then Outcome(Raised(t.loadFault.value), [IsConnected, AccountInfo, LoadModule])
    else PriceThenCheck(cfg, p, req, t).After([IsConnected, AccountInfo, LoadModule])
  }

  /** Timeouts and OS errors are ambiguous; every other exception becomes FAILED. */
  function StatusOf(exc: Exception): ExecutionStatus {
    if exc.kind == TimeoutOrOs then Unknown else Failed
  }

  datatype Attempt = Attempt(
    key: string, decision: SupervisorDecision, calls: seq<TerminalCall>, record: ExecutionRecord)

  /** One attempt: it always ends with a record. */
  function Run(cfg: ExecConfig, loaded: bool, decision: SupervisorDecision, key: string, t: TerminalScript)
    : Attempt
  {
    var p := decision.proposal;
    if !decision.approved || p.action == HOLD || (cfg.mode == Live && !cfg.allowLive) then
      Attempt(key, decision, [], PlainRecord(cfg, p, key, Rejected, None))
    else
      var request := ToRequest(cfg, p, key);
      if request.Raised? then Attempt(key, decision, [], PlainRecord(cfg, p, key, Rejected, None))
      else if cfg.mode == DryRun then
        Attempt(key, decision, [], PlainRecord(cfg, p, key, Success, None))
      else
        var out := ExecuteLive(cfg, loaded, p, request.value, t);
        var record := if out.result.Returned? then out.result.value
                      else PlainRecord(cfg, p, key, StatusOf(out.result.exc), None);
        Attempt(key, decision, out.calls, record)
  }

  /** The module stays loaded once an attempt got past loading it. */
  function LoadedAfter(loaded: bool, calls: seq<TerminalCall>, t: TerminalScript): bool {
    loaded || (LoadModule in calls && t.loadFault.None?)
  }

  /** The executor's state: its ledger, and every attempt it ever made. */
  datatype ExecState = ExecState(ledger: map<string, ExecutionRecord>, attempts: seq<Attempt>, loaded: bool)

  function KeyOf(clientId: Option<string>, freshId: string): string {
    if clientId.Some? && clientId.value != "" then clientId.value else freshId
  }

  /** A known key is replayed; a new one is attempted and remembered. */
  function Execute(cfg: ExecConfig, st: ExecState, decision: SupervisorDecision, key: string, t: TerminalScript)
    : (ExecState, ExecutionRecord)
  {
    if key in st.ledger then (st, st.ledger[key]) else
      var attempt := Run(cfg, st.loaded, decision, key, t);
      (ExecState(st.ledger[key := attempt.record], st.attempts + [attempt],
                 LoadedAfter(st.loaded, attempt.calls, t)),
       attempt.record)
  }

  // ---- The executor as it runs -------------------------------------------------------------------

  /** The broker connection and the terminal module: logs each call, then answers as scripted. */
  class Terminal {
    ghost var log: seq<TerminalCall>

    method CallIsConnected(t: TerminalScript) returns (r: Answer<bool>)
      modifies this
      ensures r == t.connected && log == old(log) + [IsConnected]
    { log := log + [IsConnected]; return t.connected; }

    method GetAccountInfo(t: TerminalScript) returns (r: Answer<int>)
      modifies this
      ensures r == t.tradeMode && log == old(log) + [AccountInfo]
    { log := log + [AccountInfo]; return t.tradeMode; }

    method Load(t: TerminalScript) returns (r: Answer<()>)
      modifies this
      ensures r == Call(t.loadFault) && log == old(log) + [LoadModule]
    { log := log + [LoadModule]; return Call(t.loadFault); }

    method Tick(symbol: string, t: TerminalScript) returns (r: Answer<Option<Quote>>)
      modifies this
      ensures r == t.tick && log == old(log) + [SymbolInfoTick(symbol)]
    { log := log + [SymbolInfoTick(symbol)]; return t.tick; }

    method CallOrderCheck(payload: Payload, t: TerminalScript) returns (r: Answer<Option<Answer<int>>>)
      modifies this
      ensures r == t.check && log == old(log) + [OrderCheck(payload)]
    { log := log + [OrderCheck(payload)]; return t.check; }

    method CallOrderSend(payload: Payload, t: TerminalScript) returns (r: Answer<Option<SendReply>>)
      modifies this
      ensures r == t.send && log == old(log) + [OrderSend(payload)]
    { log := log + [OrderSend(payload)]; return t.send; }

    method CallLastError(t: TerminalScript) returns (r: Answer<()>)
      modifies this
      ensures r == Call(t.lastErrorFault) && log == old(log) + [LastError]
    { log := log + [LastError]; return Call(t.lastErrorFault); }

    method CallPositionsGet(ticket: int, t: TerminalScript) returns (r: Answer<bool>)
      modifies this
      ensures r == t.positions && log == old(log) + [PositionsGet(ticket)]
    { log := log + [PositionsGet(ticket)]; return t.positions; }
  }

  class MT5TradeExecutor {
    const config: ExecConfig
    const terminal: Terminal
    var ledger: map<string, ExecutionRecord>
    var loaded: bool
    ghost var attempts: seq<Attempt>

    constructor (config: ExecConfig, terminal: Terminal, moduleGiven: bool)
      ensures this.config == config && this.terminal == terminal
      ensures View() == ExecState(map[], [], moduleGiven)
    {
      this.config, this.terminal := config, terminal;
      ledger, loaded, attempts := map[], moduleGiven, [];
    }

    ghost function View(): ExecState
      reads this
    {
      ExecState(ledger, attempts, loaded)
    }

    /** Idempotent by key; new attempts, and nothing else, call the terminal. */
    method ExecuteOrder(decision: SupervisorDecision, clientId: Option<string>, freshId: string, t: TerminalScript)
      returns (record: ExecutionRecord)
      modifies this, terminal
      ensures (View(), record) == Execute(config, old(View()), decision, KeyOf(clientId, freshId), t)
      ensures KeyOf(clientId, freshId) in old(ledger) ==> terminal.log == old(terminal.log)
      ensures KeyOf(clientId, freshId) !in old(ledger) ==>
                terminal.log == old(terminal.log) + attempts[|attempts| - 1].calls
      ensures clientId.Some? && clientId.value != "" ==>
        && clientId.value in ledger && ledger[clientId.value] == record
        && (clientId.value in old(ledger) ==> View() == old(View()) && record == old(ledger)[clientId.value])
      ensures clientId.None? || clientId.value == "" ==> freshId in ledger && ledger[freshId] == record
    {
      var key := if clientId.Some? && clientId.value != "" then clientId.value else freshId;
      if key in ledger { return ledger[key]; }
      record := RunAttempt(decision, key, t);
      ledger := ledger[key := record];
      attempts := attempts + [Run(config, old(loaded), decision, key, t)];
    }

    method RunAttempt(decision: SupervisorDecision, key: string, t: TerminalScript)
      returns (record: ExecutionRecord)
      modifies this`loaded, terminal
      ensures var a := Run(config, old(loaded), decision, key, t);
        && record == a.record
        && terminal.log == old(terminal.log) + a.calls
        && loaded == LoadedAfter(old(loaded), a.calls, t)
    {
      var p := decision.proposal;
      if !decision.approved { return PlainRecord(config, p, key, Rejected, None); }
      if p.action == HOLD { return PlainRecord(config, p, key, Rejected, None); }
      if config.mode == Live && !config.allowLive { return PlainRecord(config, p, key, Rejected, None); }
      var request := ToRequest(config, p, key);
      if request.Raised? { return PlainRecord(config, p, key, Rejected, None); }
      if config.mode == DryRun {
        var req := request.value;
        return ExecutionRecord(key, req.symbol, req.action, req.volume, Success, config.mode,
                               None, None, None, None, None);
      }
      var result := ExecuteOnTerminal(p, request.value, t);
      match result
      case Returned(r) => record := r;
      case Raised(exc) =>
        if exc.kind == NotConnected {
          record := PlainRecord(config, p, key, Failed, None);
        } else if exc.kind == TimeoutOrOs {
          record := PlainRecord(config, p, key, Unknown, None);
        } else {
          record := PlainRecord(config, p, key, Failed, None);
        }
    }

    method ExecuteOnTerminal(p: TradeProposal, req: OrderRequest, t: TerminalScript)
      returns (result: Answer<ExecutionRecord>)
      modifies this`loaded, terminal
      ensures var out := ExecuteLive(config, old(loaded), p, req, t);
        && result == out.result
        && terminal.log == old(terminal.log) + out.calls
        && loaded == LoadedAfter(old(loaded), out.calls, t)
    {
      if !config.hasConnection { return Returned(PlainRecord(config, p, req.clientId, Rejected, None)); }
      var connected :- terminal.CallIsConnected(t);
      if !connected { return Raised(Exception(NotConnected, "offline")); }
      var account := terminal.GetAccountInfo(t);
      if account.Raised? { return Returned(PlainRecord(config, p, req.clientId, Rejected, None)); }
      if config.mode == Demo && account.value == TRADE_MODE_REAL {
        return Returned(PlainRecord(config, p, req.clientId, Rejected, None));
      }
      var _ :- RequireModule(t);
      ghost var ready := terminal.log;
      result := Submit(p, req, t);
      NoLoading(config, p, req, t);
      assert terminal.log == ready + PriceThenCheck(config, p, req, t).calls;
    }

    /** Loads the terminal's module on first use. */
    method RequireModule(t: TerminalScript) returns (r: Answer<()>)
      modifies this`loaded, terminal
      ensures terminal.log == old(terminal.log) + (if old(loaded) then [] else [LoadModule])
      ensures if old(loaded) then r == Returned(()) && loaded else r == Call(t.loadFault) && loaded == r.Returned?
    {
      if !loaded {
        var _ :- terminal.Load(t);
        loaded := true;
      }
      r := Returned(());
    }

    method Submit(p: TradeProposal, req: OrderRequest, t: TerminalScript)
      returns (result: Answer<ExecutionRecord>)
      modifies terminal
      ensures var out := PriceThenCheck(config, p, req, t);
        result == out.result && terminal.log == old(terminal.log) + out.calls
    {
      var tick :- terminal.Tick(req.symbol, t);
      if tick.None? { return Returned(PlainRecord(config, p, req.clientId, Failed, None)); }
      var price :- if req.action == BUY then tick.value.ask else tick.value.bid;
      var _ :- Call(t.payloadFault);
      var payload := PayloadOf(req, price);
      var checked :- terminal.CallOrderCheck(payload, t);
      var passes :- CheckPasses(checked);
      if !passes {
        var _ :- terminal.CallLastError(t);
        return Returned(PlainRecord(config, p, req.clientId, Failed, Some(price)));
      }
      var sent :- terminal.CallOrderSend(payload, t);
      var accepted :- SendAccepted(sent);
      if !accepted {
        var _ :- terminal.CallLastError(t);
        return Returned(PlainRecord(config, p, req.clientId, Failed, Some(price)));
      }
      var quoted :- sent.value.price;
      var executed := if quoted == 0.0 then price else quoted;
      var order :- sent.value.order;
      if order > 0 {
        // looked up for the message only; a failing lookup is swallowed
        var _ := terminal.CallPositionsGet(order, t);
      }
      var deal :- sent.value.deal;
      result := FillRecord(config, req, price, executed, order, deal);
    }
  }

  /** Past the account check the module is never loaded again. */
  lemma NoLoading(cfg: ExecConfig, p: TradeProposal, req: OrderRequest, t: TerminalScript)
    ensures LoadModule !in PriceThenCheck(cfg, p, req, t).calls
  {
  }
}
