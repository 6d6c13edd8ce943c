/** From the strategy's signal and the LLM's untrusted JSON to a validated trade proposal. */
module Planner {
  import opened Common
  import opened Signals

  datatype TradeAction = BUY | SELL | HOLD

  datatype ProposalFields = Proposal(
    action: TradeAction, symbol: string, confidence: real, rationale: string, strategy: string,
    entry: Option<real>, stopLoss: Option<real>, takeProfit: Option<real>,
    riskPct: real, volume: Option<real>)
  {
    predicate Valid() {
      && !Blank(symbol)
      && 0.0 <= confidence <= 1.0
      && !Blank(rationale)
      && 0.0 <= riskPct <= 100.0
      && Positive(volume) && Positive(entry) && Positive(stopLoss) && Positive(takeProfit)
      && (action == HOLD ==> entry.None? && volume.None?)
    }

    predicate IsActionable() {
      action == BUY || action == SELL
    }
  }

  type TradeProposal = p: ProposalFields | p.Valid()
    witness Proposal(HOLD, "X", 0.0, "none", "null", None, None, None, 0.0, None)

  predicate Positive(x: Option<real>) {
    x.Some? ==> x.value > 0.0
  }

  /** The frozen record's constructor: raises unless every field check passes. */
  function NewProposal(fields: ProposalFields): Answer<TradeProposal> {
    var _ :- Check(fields.Valid());
    Returned(fields)
  }

  /** What the constructor accepts. */
  lemma ProposalAccepted(f: ProposalFields)
    ensures NewProposal(f).Returned? <==>
      && !Blank(f.symbol) && !Blank(f.rationale)
      && 0.0 <= f.confidence && f.confidence <= 1.0 && 0.0 <= f.riskPct && f.riskPct <= 100.0
      && (forall x | x in {f.volume, f.entry, f.stopLoss, f.takeProfit} && x.Some? :: x.value > 0.0)
      && (f.entry.Some? || f.volume.Some? ==> f.action != HOLD)
    ensures NewProposal(f).Returned? ==> NewProposal(f).value == f
  {
  }

  datatype InputFields = PlannerInput(symbol: string, signal: Signal) {
    predicate Valid() {
      !Blank(symbol) && signal.symbol == symbol
    }
  }

  type PlannerInput = i: InputFields | i.Valid() witness PlannerInput("X", Signal("null", "X", Flat, 0.0))

  /** One member of the LLM's JSON object, as far as `float()` can tell. */
  datatype Field = Absent | Null | Number(value: real) | NotNumber

  /** The LLM's JSON object. `action` is the text after `str(...).upper()`, `rationale` after `str(... or "")`. */
  datatype RawProposal = RawProposal(
    action: string, entry: Field, stopLoss: Field, takeProfit: Field,
    riskPct: Field, volume: Field, confidence: Field, rationale: string)

  /** What the provider returned: `None` when the structured part is not a JSON object. */
  datatype Reply = Reply(structured: Option<RawProposal>)

  function ParseAction(text: string): Option<TradeAction> {
    if text == "BUY" then Some(BUY)
    else if text == "SELL" then Some(SELL)
    else if text == "HOLD" then Some(HOLD)
    else None
  }

  function OptFloat(f: Field): Answer<Option<real>> {
    match f
    case Absent => Returned(None)
    case Null => Returned(None)
    case NotNumber => Raised(Exception(ValueError, "number"))
    case Number(x) => if x <= 0.0 then Raised(Exception(ValueError, "positive")) else Returned(Some(x))
  }

  /** Absent means the default 0.0; an explicit null is not a number. */
  function ReqFloat(f: Field): Answer<real> {
    match f
    case Absent => Returned(0.0)
    case Number(x) => Returned(x)
    case Null => Raised(Exception(ValueError, "number"))
    case NotNumber => Raised(Exception(ValueError, "number"))
  }

  datatype Numbers = Numbers(
    entry: Option<real>, stopLoss: Option<real>, takeProfit: Option<real>,
    riskPct: real, volume: Option<real>, confidence: real)

  function ParseNumbers(data: RawProposal): Answer<Numbers> {
    var entry :- OptFloat(data.entry);
    var stopLoss :- OptFloat(data.stopLoss);
    var takeProfit :- OptFloat(data.takeProfit);
    var riskPct :- ReqFloat(data.riskPct);
    var volume :- OptFloat(data.volume);
    var confidence :- ReqFloat(data.confidence);
    Returned(Numbers(entry, stopLoss, takeProfit, riskPct, volume, confidence))
  }

  /** Strict validation of the LLM's JSON object. */
  function ValidateProposal(data: RawProposal, input: PlannerInput): (r: Answer<TradeProposal>)
    ensures r.Returned? ==> r.value.symbol == input.symbol
  {
    var action := ParseAction(data.action);
    var _ :- Check(action.Some?);
    var n :- ParseNumbers(data);
    if action.value == HOLD then ValidateHold(n, data.rationale, input)
    else ValidateTrade(action.value, n, data.rationale, input)
  }

  function ValidateHold(n: Numbers, rationale: string, input: PlannerInput): (r: Answer<TradeProposal>)
    ensures r.Returned? ==> r.value.symbol == input.symbol
  {
    var _ :- Check(0.0 <= n.confidence <= 1.0);
    var _ :- Check(0.0 <= n.riskPct <= 100.0);
    NewProposal(Proposal(HOLD, input.symbol, n.confidence,
                         if rationale == "" then "HOLD" else rationale,
                         input.signal.strategy, None, None, None, n.riskPct, None))
  }

  function ValidateTrade(action: TradeAction, n: Numbers, rationale: string, input: PlannerInput)
    : (r: Answer<TradeProposal>)
    ensures r.Returned? ==> r.value.symbol == input.symbol
  {
    var _ :- Check(input.signal.direction == (if action == BUY then Long else Short));
    var _ :- Check(n.entry.Some?);
    var _ :- Check(n.stopLoss.Some? && n.takeProfit.Some?);
    var _ :- Check(action == BUY ==> n.stopLoss.value < n.entry.value < n.takeProfit.value);
    var _ :- Check(action == SELL ==> n.takeProfit.value < n.entry.value < n.stopLoss.value);
    var _ :- Check(!Blank(rationale));
    var _ :- Check(0.0 <= n.confidence <= 1.0);
    var _ :- Check(0.0 <= n.riskPct <= 100.0);
    NewProposal(Proposal(action, input.symbol, n.confidence, rationale, input.signal.strategy,
                         n.entry, n.stopLoss, n.takeProfit, n.riskPct, n.volume))
  }

  /** Any provider failure or malformed output degrades to HOLD. */
  function Plan(input: PlannerInput, reply: Answer<Reply>): (p: TradeProposal)
    ensures p.symbol == input.symbol
  {
    var proposal :=
      var r :- reply;
      var _ :- Check(r.structured.Some?);
      ValidateProposal(r.structured.value, input);
    match proposal
    case Returned(p) => p
    case Raised(_) => Hold(input, "degraded", "llm_planner")
  }

  function Hold(input: PlannerInput, rationale: string, strategy: string): TradeProposal
    requires !Blank(rationale)
  {
    Proposal(HOLD, input.symbol, 0.0, rationale, strategy, None, None, None, 0.0, None)
  }

  // ---- When can the LLM get a trade past the planner? -------------------------------------------

  predicate NumberIn(f: Field, hi: real) {
    f == Absent || (f.Number? && 0.0 <= f.value <= hi)
  }

  /** A JSON object that asks for `action` with a well-formed, correctly ordered bracket. */
  predicate WellFormedOrder(data: RawProposal, action: TradeAction) {
    && action != HOLD && data.action == (if action == BUY then "BUY" else "SELL")
    && data.entry.Number? && data.stopLoss.Number? && data.takeProfit.Number?
    && Bracketed(action, data.entry.value, data.stopLoss.value, data.takeProfit.value)
    && (data.volume.Number? ==> data.volume.value > 0.0) && data.volume != NotNumber
    && NumberIn(data.riskPct, 100.0) && NumberIn(data.confidence, 1.0)
    && !Blank(data.rationale)
  }

  /** Positive prices, ordered around the entry in the direction of the trade. */
  predicate Bracketed(action: TradeAction, entry: real, stopLoss: real, takeProfit: real) {
    if action == BUY then 0.0 < stopLoss < entry < takeProfit else 0.0 < takeProfit < entry < stopLoss
  }

  function DirectionOf(action: TradeAction): Direction {
    match action case BUY => Long case SELL => Short case HOLD => Flat
  }

  /** A BUY or SELL comes out exactly when the LLM asks for it, well formed, in the signal's direction. */
  lemma ActionableIff(input: PlannerInput, reply: Answer<Reply>, action: TradeAction)
    requires action != HOLD
    ensures var p := Plan(input, reply);
      p.action == action <==>
        && input.signal.direction == DirectionOf(action)
        && reply.Returned? && reply.value.structured.Some?
        && WellFormedOrder(reply.value.structured.value, action)
  {
  }

  /** Whatever the provider does, a trade carries the LLM's own numbers, an ordered bracket and the signal's symbol. */
  lemma PlannedTrade(input: PlannerInput, reply: Answer<Reply>)
    requires Plan(input, reply).action != HOLD
    ensures reply.Returned? && reply.value.structured.Some?
    ensures var p := Plan(input, reply);
      && input.signal.direction == DirectionOf(p.action)
      && CarriesOrder(p, reply.value.structured.value, input)
  {
  }

  /** A JSON object that asks for HOLD and whose other members are well formed. */
  predicate WellFormedHold(data: RawProposal) {
    && data.action == "HOLD"
    && MissingOrPositive(data.entry) && MissingOrPositive(data.stopLoss)
    && MissingOrPositive(data.takeProfit) && MissingOrPositive(data.volume)
    && NumberIn(data.riskPct, 100.0) && NumberIn(data.confidence, 1.0)
    && (data.rationale != "" ==> !Blank(data.rationale))
  }

  /** An optional price or volume that is missing or a positive number. */
  predicate MissingOrPositive(f: Field) {
    f != NotNumber && (f.Number? ==> f.value > 0.0)
  }

  /**
    * A HOLD carries no price and no volume. It keeps the LLM's confidence, risk share and rationale exactly when
    * the LLM asked for it in a well-formed way; every other reply degrades to an empty HOLD of the planner.
    */
  lemma HoldIsEmpty(input: PlannerInput, reply: Answer<Reply>)
    requires Plan(input, reply).action == HOLD
    ensures var p := Plan(input, reply);
      && p.symbol == input.symbol
      && p.entry.None? && p.stopLoss.None? && p.takeProfit.None? && p.volume.None?
      && (if reply.Returned? && reply.value.structured.Some? && WellFormedHold(reply.value.structured.value) then
            var data := reply.value.structured.value;
            && p.strategy == input.signal.strategy
            && p.confidence == (if data.confidence.Number? then data.confidence.value else 0.0)
            && p.riskPct == (if data.riskPct.Number? then data.riskPct.value else 0.0)
            && (data.rationale != "" ==> p.rationale == data.rationale)
          else p.strategy == "llm_planner" && p.confidence == 0.0 && p.riskPct == 0.0)
  {
  }

  predicate CarriesOrder(p: TradeProposal, data: RawProposal, input: PlannerInput) {
    && p.symbol == input.symbol
    && p.entry.Some? && data.entry == Number(p.entry.value)
    && p.stopLoss.Some? && data.stopLoss == Number(p.stopLoss.value)
    && p.takeProfit.Some? && data.takeProfit == Number(p.takeProfit.value)
    && Bracketed(p.action, p.entry.value, p.stopLoss.value, p.takeProfit.value)
    && (if data.volume.Number? then p.volume == Some(data.volume.value) else p.volume == None)
    && p.riskPct == (if data.riskPct.Number? then data.riskPct.value else 0.0)
    && p.confidence == (if data.confidence.Number? then data.confidence.value else 0.0)
    && p.rationale == data.rationale && p.strategy == input.signal.strategy
  }
}
