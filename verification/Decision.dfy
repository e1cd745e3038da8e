/** Paper sizing, the risk gates and the decision built on them. */
module Decision {
  import opened Prelude
  import opened Paper
  import opened Fusion

  datatype RiskParams = RiskParams(
    maxRisk: real, maxExposure: real, maxDailyLoss: real, maxDrawdown: real, minRr: real, slMultiple: real,
    tpMultiple: real, correlationCap: real, riskEnabled: bool, paperEquity: real)

  datatype GateState = GateState(
    exposureUsed: real, correlationUsed: real, dailyLossUsed: real, drawdownUsed: real, correlationTriggered: bool)

  datatype Sizing = Sizing(units: real, stopLoss: real, takeProfit: real, rr: real, riskPct: real, atr: real, price: real)

  datatype Gate = Rr | Exposure | Correlation | DailyLoss | Drawdown | FlatGate | SizingGate

  /** The gates every assessment reports, in the order a failure is looked for. */
  const GATES: seq<Gate> := [Rr, Exposure, Correlation, DailyLoss, Drawdown]

  datatype RiskOutcome = RiskOutcome(passed: bool, sizing: Option<Sizing>, gates: map<Gate, bool>, paper: bool)

  // ---- sizing -----------------------------------------------------------------------------

  function StopDistance(atr: real, p: RiskParams): real {
    p.slMultiple * atr
  }

  function TargetDistance(atr: real, p: RiskParams): real {
    p.tpMultiple * atr
  }

  function RiskBudget(p: RiskParams): real {
    p.paperEquity * p.maxRisk
  }

  function NotionalCap(p: RiskParams): real {
    p.paperEquity * p.maxExposure
  }

  /** What the risk budget buys at the stop distance; nothing without one. */
  function ByRisk(sl: real, budget: real): real {
    if sl > 0.0 then budget / sl else 0.0
  }

  /** The smaller of what the risk budget buys at the stop distance and what the exposure cap buys at the price. */
  function RawUnits(price: real, sl: real, budget: real, cap: real): real {
    Min(ByRisk(sl, budget), if price > 0.0 then cap / price else 0.0)
  }

  function UnitsFor(price: real, sl: real, budget: real, cap: real): real {
    Round6(RawUnits(price, sl, budget, cap))
  }

  function RiskShare(units: real, price: real, sl: real, equity: real): real {
    if equity != 0.0 then Round4(units * price * sl / equity) else 0.0
  }

  function ComputeSizing(price: real, atr: real, direction: Direction, p: RiskParams): Sizing {
    var s := SignOf(direction) as real;
    var sl, tp := StopDistance(atr, p), TargetDistance(atr, p);
    var units := UnitsFor(price, sl, RiskBudget(p), NotionalCap(p));
    var riskPct := RiskShare(units, price, sl, p.paperEquity);
    Sizing(units, Round8(price - s * sl), Round8(price + s * tp), if sl > 0.0 then Round4(tp / sl) else 0.0,
           Min(riskPct, 1.0), atr, price)
  }

  // ---- gates ------------------------------------------------------------------------------

  predicate Sizable(atr: Option<real>, price: Option<real>) {
    atr.Some? && atr.value > 0.0 && price.Some? && price.value > 0.0
  }

  /** What each gate asks for. */
  predicate GateOk(g: Gate, sizing: Sizing, gate: GateState, p: RiskParams) {
    match g
    case Rr => sizing.rr >= p.minRr
    case Exposure => gate.exposureUsed + p.maxRisk <= p.maxExposure
    case Correlation => !gate.correlationTriggered || gate.correlationUsed + p.maxRisk <= p.correlationCap
    case DailyLoss => gate.dailyLossUsed + p.maxRisk <= p.maxDailyLoss
    case Drawdown => gate.drawdownUsed + p.maxRisk <= p.maxDrawdown
    case _ => true
  }

  predicate AllGatesOk(sizing: Sizing, gate: GateState, p: RiskParams) {
    forall g :: g in GATES ==> GateOk(g, sizing, gate, p)
  }

  function Assessed(direction: Direction, atr: Option<real>, price: Option<real>, gate: GateState,
                    p: RiskParams): RiskOutcome {
    if direction == FLAT then RiskOutcome(true, None, (map g | g in GATES :: true)[FlatGate := true], false)
    else if !Sizable(atr, price) then RiskOutcome(false, None, (map g | g in GATES :: false)[SizingGate := false], false)
    else
      var sizing := ComputeSizing(price.value, atr.value, direction, p);
      var ok := AllGatesOk(sizing, gate, p);
      RiskOutcome(ok, Some(sizing), map g | g in GATES :: GateOk(g, sizing, gate, p), ok && p.riskEnabled)
  }

  lemma GateMembers(g: Gate)
    ensures g in GATES <==> g != FlatGate && g != SizingGate
  {
    match g
    case Rr => assert GATES[0] == g;
    case Exposure => assert GATES[1] == g;
    case Correlation => assert GATES[2] == g;
    case DailyLoss => assert GATES[3] == g;
    case Drawdown => assert GATES[4] == g;
    case _ =>
  }

  /** Give every gate the same answer. */
  method FillGates(ok: bool) returns (gates: map<Gate, bool>)
    ensures gates == map g | g in GATES :: ok
  {
    gates := map[];
    var i := 0;
    while i < |GATES|
      invariant 0 <= i <= |GATES|
      invariant gates == map g | g in GATES[..i] :: ok
    {
      assert GATES[..i + 1] == GATES[..i] + [GATES[i]];
      gates := gates[GATES[i] := ok];
      i := i + 1;
    }
    assert GATES[..i] == GATES;
  }

  lemma FiveGates(gates: map<Gate, bool>, rr: bool, exposure: bool, correlation: bool, daily: bool, drawdown: bool)
    requires
      gates == map[Rr := rr, Exposure := exposure, Correlation := correlation, DailyLoss := daily, Drawdown := drawdown]
    ensures forall g :: g in gates <==> g in GATES
    ensures (forall g :: g in gates ==> gates[g]) <==> rr && exposure && correlation && daily && drawdown
  {
    forall g: Gate
      ensures g in gates <==> g in GATES
    {
      GateMembers(g);
    }
    assert gates[Rr] == rr && gates[Exposure] == exposure && gates[Correlation] == correlation;
    assert gates[DailyLoss] == daily && gates[Drawdown] == drawdown;
  }

  lemma GateTable(gates: map<Gate, bool>, sizing: Sizing, gate: GateState, p: RiskParams)
    requires
      gates == map[Rr := GateOk(Rr, sizing, gate, p), Exposure := GateOk(Exposure, sizing, gate, p),
                   Correlation := GateOk(Correlation, sizing, gate, p), DailyLoss := GateOk(DailyLoss, sizing, gate, p),
                   Drawdown := GateOk(Drawdown, sizing, gate, p)]
    ensures gates == map g | g in GATES :: GateOk(g, sizing, gate, p)
  {
    hide GateOk;
    FiveGates(gates, GateOk(Rr, sizing, gate, p), GateOk(Exposure, sizing, gate, p), GateOk(Correlation, sizing, gate, p),
              GateOk(DailyLoss, sizing, gate, p), GateOk(Drawdown, sizing, gate, p));
  }

  /** Fill the gate table one gate at a time. */
  method Assess(direction: Direction, atr: Option<real>, price: Option<real>, gate: GateState, p: RiskParams)
    returns (o: RiskOutcome)
    ensures o == Assessed(direction, atr, price, gate, p)
  {
    hide ComputeSizing;
    var gates: map<Gate, bool>;
    if direction == FLAT {
      gates := FillGates(true);
      gates := gates[FlatGate := true];
      return RiskOutcome(true, None, gates, false);
    }
    if !Sizable(atr, price) {
      gates := FillGates(false);
      gates := gates[SizingGate := false];
      return RiskOutcome(false, None, gates, false);
    }
    var sizing := ComputeSizing(price.value, atr.value, direction, p);
    gates := map[];
    gates := gates[Rr := sizing.rr >= p.minRr];
    gates := gates[Exposure := gate.exposureUsed + p.maxRisk <= p.maxExposure];
    gates := gates[Correlation := !gate.correlationTriggered || gate.correlationUsed + p.maxRisk <= p.correlationCap];
    gates := gates[DailyLoss := gate.dailyLossUsed + p.maxRisk <= p.maxDailyLoss];
    gates := gates[Drawdown := gate.drawdownUsed + p.maxRisk <= p.maxDrawdown];
    GateTable(gates, sizing, gate, p);
    var ok := forall g :: g in GATES ==> gates[g];
    o := RiskOutcome(ok, Some(sizing), gates, ok && p.riskEnabled);
  }

  // ---- the decision -------------------------------------------------------------------------

  datatype OrchParams = OrchParams(coverageMin: real, agreementMin: real, threshold: real)

  datatype Inputs = Inputs(
    signals: map<Agent, AgentSignal>, weights: map<Agent, real>, atr: Option<real>, price: Option<real>, coverage: real,
    gate: GateState, parent: Option<Context>)

  datatype Status = ANALYSIS | PAPER | BLOCKED

  datatype Veto = LowAgreement | RiskDisabled | FailedGate(gate: Gate) | GenericRisk

  datatype SkipReason = NoDirectionalVotes | InsufficientCoverage | WeakFlat

  /** `Failed` is the lookup error of a voter without weight. */
  datatype Outcome =
    | Skip(reason: SkipReason)
    | Persist(fused: Fused, status: Status, risk: RiskOutcome, veto: Option<Veto>)
    | Failed

  function FirstFailing(gates: map<Gate, bool>, order: seq<Gate>): Veto {
    if order == [] then GenericRisk
    else if order[0] in gates && !gates[order[0]] then FailedGate(order[0])
    else FirstFailing(gates, order[1..])
  }

  /** The fused result after any context of the parent timeframe. */
  function FusedWithContext(inputs: Inputs, threshold: real): FuseOutcome {
    var own := Fuse(inputs.signals, inputs.weights, threshold);
    if own.Ok? && inputs.parent.Some? then Ok(ApplyContext(own.fused, inputs.parent.value)) else own
  }

  function Judge(fused: Fused, agreementMin: real, risk: RiskOutcome): Outcome {
    if fused.agreement < agreementMin then Persist(fused, ANALYSIS, risk, Some(LowAgreement))
    else if risk.passed && risk.paper then Persist(fused, PAPER, risk, None)
    else if risk.passed then Persist(fused, ANALYSIS, risk, Some(RiskDisabled))
    else Persist(fused, BLOCKED, risk, Some(FirstFailing(risk.gates, GATES)))
  }

  function ComputeDecision(inputs: Inputs, orch: OrchParams, p: RiskParams): Outcome {
    var f := FusedWithContext(inputs, orch.threshold);
    if f.MissingWeight? then Failed
    else if f.fused.voting == [] then Skip(NoDirectionalVotes)
    else if inputs.coverage < orch.coverageMin then Skip(InsufficientCoverage)
    else if f.fused.direction == FLAT then Skip(WeakFlat)
    else Judge(f.fused, orch.agreementMin, Assessed(f.fused.direction, inputs.atr, inputs.price, inputs.gate, p))
  }

  predicate IsPaper(o: Outcome) {
    o.Persist? && o.status == PAPER
  }

  // ---- fail-closed ------------------------------------------------------------------------

  /** Everything that has to hold before an intent may be promoted, spelled out. */
  ghost predicate MayPromote(inputs: Inputs, orch: OrchParams, p: RiskParams) {
    var f := FusedWithContext(inputs, orch.threshold);
    && f.Ok? && f.fused.voting != [] && f.fused.direction != FLAT
    && inputs.coverage >= orch.coverageMin
    && f.fused.agreement >= orch.agreementMin
    && inputs.atr.Some? && inputs.atr.value > 0.0 && inputs.price.Some? && inputs.price.value > 0.0
    && ComputeSizing(inputs.price.value, inputs.atr.value, f.fused.direction, p).rr >= p.minRr
    && inputs.gate.exposureUsed + p.maxRisk <= p.maxExposure
    && (inputs.gate.correlationTriggered ==> inputs.gate.correlationUsed + p.maxRisk <= p.correlationCap)
    && inputs.gate.dailyLossUsed + p.maxRisk <= p.maxDailyLoss
    && inputs.gate.drawdownUsed + p.maxRisk <= p.maxDrawdown
    && p.riskEnabled
  }

  lemma AllGatesSpelled(sizing: Sizing, gate: GateState, p: RiskParams)
    ensures
      AllGatesOk(sizing, gate, p) <==>
      && sizing.rr >= p.minRr && gate.exposureUsed + p.maxRisk <= p.maxExposure
      && (gate.correlationTriggered ==> gate.correlationUsed + p.maxRisk <= p.correlationCap)
      && gate.dailyLossUsed + p.maxRisk <= p.maxDailyLoss && gate.drawdownUsed + p.maxRisk <= p.maxDrawdown
  {
    forall g: Gate
      ensures g in GATES <==> g != FlatGate && g != SizingGate
    {
      GateMembers(g);
    }
    assert GateOk(Rr, sizing, gate, p) <==> sizing.rr >= p.minRr;
    assert GateOk(Exposure, sizing, gate, p) <==> gate.exposureUsed + p.maxRisk <= p.maxExposure;
    assert GateOk(Correlation, sizing, gate, p) <==>
      (gate.correlationTriggered ==> gate.correlationUsed + p.maxRisk <= p.correlationCap);
    assert GateOk(DailyLoss, sizing, gate, p) <==> gate.dailyLossUsed + p.maxRisk <= p.maxDailyLoss;
    assert GateOk(Drawdown, sizing, gate, p) <==> gate.drawdownUsed + p.maxRisk <= p.maxDrawdown;
  }

  /** A decision is PAPER exactly when every single condition holds. */
  lemma PaperIff(inputs: Inputs, orch: OrchParams, p: RiskParams)
    ensures IsPaper(ComputeDecision(inputs, orch, p)) <==> MayPromote(inputs, orch, p)
  {
    hide FusedWithContext, ComputeSizing, AllGatesOk;
    var f := FusedWithContext(inputs, orch.threshold);
    if f.Ok? && Sizable(inputs.atr, inputs.price) {
      AllGatesSpelled(ComputeSizing(inputs.price.value, inputs.atr.value, f.fused.direction, p), inputs.gate, p);
    }
  }

  predicate Heavier(a: GateState, b: GateState) {
    && a.exposureUsed <= b.exposureUsed && a.correlationUsed <= b.correlationUsed
    && a.dailyLossUsed <= b.dailyLossUsed && a.drawdownUsed <= b.drawdownUsed
    && (a.correlationTriggered ==> b.correlationTriggered)
  }

  /** More usage of any gate never promotes a decision. */
  lemma UsageNeverPromotes(inputs: Inputs, heavier: GateState, orch: OrchParams, p: RiskParams)
    requires Heavier(inputs.gate, heavier)
    ensures IsPaper(ComputeDecision(inputs.(gate := heavier), orch, p)) ==> IsPaper(ComputeDecision(inputs, orch, p))
  {
    hide ComputeDecision, ComputeSizing, Fuse, ApplyContext;
    PaperIff(inputs, orch, p);
    PaperIff(inputs.(gate := heavier), orch, p);
  }

  lemma {:induction false} FirstFailingFails(gates: map<Gate, bool>, order: seq<Gate>)
    ensures
      match FirstFailing(gates, order)
      case FailedGate(g) => g in order && g in gates && !gates[g]
      case GenericRisk => forall g :: g in order && g in gates ==> gates[g]
      case _ => false
  {
    if order != [] {
      FirstFailingFails(gates, order[1..]);
      assert order == [order[0]] + order[1..];
    }
  }

  /** A blocked decision names a gate that is reported and failed; the generic veto never occurs. */
  lemma BlockedNamesAGate(inputs: Inputs, orch: OrchParams, p: RiskParams)
    requires ComputeDecision(inputs, orch, p).Persist? && ComputeDecision(inputs, orch, p).status == BLOCKED
    ensures
      var o := ComputeDecision(inputs, orch, p);
      && o.veto.Some? && o.veto.value.FailedGate?
      && o.veto.value.gate in GATES && o.veto.value.gate in o.risk.gates && !o.risk.gates[o.veto.value.gate]
  {
    hide FusedWithContext, ComputeSizing, GateOk;
    var o := ComputeDecision(inputs, orch, p);
    FirstFailingFails(o.risk.gates, GATES);
    GateMembers(Rr);
  }

  // ---- every outcome, from the inputs ---------------------------------------------------------

  /** What one gate reports, spelled out: nothing holds without a size. */
  ghost predicate GateHolds(g: Gate, inputs: Inputs, side: Direction, p: RiskParams) {
    && inputs.atr.Some? && inputs.atr.value > 0.0 && inputs.price.Some? && inputs.price.value > 0.0
    && match g
       case Rr => ComputeSizing(inputs.price.value, inputs.atr.value, side, p).rr >= p.minRr
       case Exposure => inputs.gate.exposureUsed + p.maxRisk <= p.maxExposure
       case Correlation =>
         inputs.gate.correlationTriggered ==> inputs.gate.correlationUsed + p.maxRisk <= p.correlationCap
       case DailyLoss => inputs.gate.dailyLossUsed + p.maxRisk <= p.maxDailyLoss
       case Drawdown => inputs.gate.drawdownUsed + p.maxRisk <= p.maxDrawdown
       case _ => true
  }

  /** The first gate that fails, looked for in the source's order; without a size that is the reward-to-risk gate. */
  ghost function FirstFailed(inputs: Inputs, side: Direction, p: RiskParams): Gate {
    if !GateHolds(Rr, inputs, side, p) then Rr
    else if !GateHolds(Exposure, inputs, side, p) then Exposure
    else if !GateHolds(Correlation, inputs, side, p) then Correlation
    else if !GateHolds(DailyLoss, inputs, side, p) then DailyLoss
    else Drawdown
  }

  /** All five gates hold. */
  ghost predicate GatesPass(inputs: Inputs, side: Direction, p: RiskParams) {
    && GateHolds(Rr, inputs, side, p) && GateHolds(Exposure, inputs, side, p) && GateHolds(Correlation, inputs, side, p)
    && GateHolds(DailyLoss, inputs, side, p) && GateHolds(Drawdown, inputs, side, p)
  }

  /** Votes, coverage and a side: what a decision needs to be kept. */
  ghost predicate Kept(f: FuseOutcome, inputs: Inputs, orch: OrchParams) {
    f.Ok? && f.fused.voting != [] && inputs.coverage >= orch.coverageMin && f.fused.direction != FLAT
  }

  lemma FirstOfFive(gates: map<Gate, bool>)
    requires forall g :: g in GATES ==> g in gates
    ensures
      FirstFailing(gates, GATES) ==
      if !gates[Rr] then FailedGate(Rr)
      else if !gates[Exposure] then FailedGate(Exposure)
      else if !gates[Correlation] then FailedGate(Correlation)
      else if !gates[DailyLoss] then FailedGate(DailyLoss)
      else if !gates[Drawdown] then FailedGate(Drawdown)
      else GenericRisk
  {
    FiveAreGates();
    assert [Drawdown][1..] == [] && [DailyLoss, Drawdown][1..] == [Drawdown];
    assert [Correlation, DailyLoss, Drawdown][1..] == [DailyLoss, Drawdown];
    assert [Exposure, Correlation, DailyLoss, Drawdown][1..] == [Correlation, DailyLoss, Drawdown];
    assert GATES[1..] == [Exposure, Correlation, DailyLoss, Drawdown];
    assert FirstFailing(gates, [Drawdown]) == if !gates[Drawdown] then FailedGate(Drawdown) else GenericRisk;
    assert FirstFailing(gates, [DailyLoss, Drawdown]) ==
      if !gates[DailyLoss] then FailedGate(DailyLoss) else FirstFailing(gates, [Drawdown]);
    assert FirstFailing(gates, [Correlation, DailyLoss, Drawdown]) ==
      if !gates[Correlation] then FailedGate(Correlation) else FirstFailing(gates, [DailyLoss, Drawdown]);
  }

  lemma FiveAreGates()
    ensures Rr in GATES && Exposure in GATES && Correlation in GATES && DailyLoss in GATES && Drawdown in GATES
  {
    GateMembers(Rr);
    GateMembers(Exposure);
    GateMembers(Correlation);
    GateMembers(DailyLoss);
    GateMembers(Drawdown);
  }

  /** What the assessment of a side reports gate by gate. */
  lemma ReportIs(inputs: Inputs, side: Direction, p: RiskParams)
    requires side != FLAT
    ensures
      var r := Assessed(side, inputs.atr, inputs.price, inputs.gate, p);
      && (forall g :: g in GATES ==> g in r.gates && (r.gates[g] <==> GateHolds(g, inputs, side, p)))
      && FlatGate !in r.gates && (SizingGate in r.gates <==> !Sizable(inputs.atr, inputs.price))
  {
    hide ComputeSizing, AllGatesOk;
    GateMembers(FlatGate);
    GateMembers(SizingGate);
    var r := Assessed(side, inputs.atr, inputs.price, inputs.gate, p);
    forall g | g in GATES
      ensures g in r.gates && (r.gates[g] <==> GateHolds(g, inputs, side, p))
    {
      GateMembers(g);
    }
  }

  /** The assessment of a side: whether it passes, what it reports, and which gate is the first to fail. */
  lemma AssessedIs(inputs: Inputs, side: Direction, p: RiskParams)
    requires side != FLAT
    ensures
      var r := Assessed(side, inputs.atr, inputs.price, inputs.gate, p);
      && (r.passed <==> GatesPass(inputs, side, p)) && (r.paper <==> r.passed && p.riskEnabled)
      && (r.sizing.Some? <==> Sizable(inputs.atr, inputs.price))
      && (r.sizing.Some? ==> r.sizing.value == ComputeSizing(inputs.price.value, inputs.atr.value, side, p))
      && (forall g :: g in GATES ==> g in r.gates && (r.gates[g] <==> GateHolds(g, inputs, side, p)))
      && (!r.passed ==> FirstFailing(r.gates, GATES) == FailedGate(FirstFailed(inputs, side, p)))
  {
    hide GateHolds, FirstFailing;
    ReportIs(inputs, side, p);
    FiveAreGates();
    PassedIff(inputs, side, p);
    FirstOfFive(Assessed(side, inputs.atr, inputs.price, inputs.gate, p).gates);
  }

  lemma PassedIff(inputs: Inputs, side: Direction, p: RiskParams)
    requires side != FLAT
    ensures
      var r := Assessed(side, inputs.atr, inputs.price, inputs.gate, p);
      && (r.passed <==> GatesPass(inputs, side, p)) && (r.paper <==> r.passed && p.riskEnabled)
      && r.sizing == if Sizable(inputs.atr, inputs.price)
                     then Some(ComputeSizing(inputs.price.value, inputs.atr.value, side, p)) else None
  {
    hide ComputeSizing, AllGatesOk;
    if Sizable(inputs.atr, inputs.price) {
      AllGatesSpelled(ComputeSizing(inputs.price.value, inputs.atr.value, side, p), inputs.gate, p);
    }
  }

  /** Without a side nothing is sized: every gate is reported as passed, and it is not a paper intent. */
  lemma FlatIsPassed(inputs: Inputs, p: RiskParams)
    ensures
      var r := Assessed(FLAT, inputs.atr, inputs.price, inputs.gate, p);
      && r.passed && !r.paper && r.sizing.None?
      && forall g :: (g in r.gates <==> g in GATES || g == FlatGate) && (g in r.gates ==> r.gates[g])
  {
    GateMembers(FlatGate);
  }

  /**
   * Every outcome of a decision, told from its inputs. It fails with the fusion; it is skipped, with the first reason that
   * applies, without votes, without coverage or without a side; everything else is kept with its fused result and
   * assessment: as ANALYSIS below the agreement floor, then by the gates as BLOCKED with the first failing gate's name, and
   * past them as PAPER or, with risk disabled, as ANALYSIS.
   */
  lemma OutcomeIs(inputs: Inputs, orch: OrchParams, p: RiskParams)
    ensures
      var f, o := FusedWithContext(inputs, orch.threshold), ComputeDecision(inputs, orch, p);
      && (o.Failed? <==> f.MissingWeight?)
      && (o == Skip(NoDirectionalVotes) <==> f.Ok? && f.fused.voting == [])
      && (o == Skip(InsufficientCoverage) <==>
          f.Ok? && f.fused.voting != [] && inputs.coverage < orch.coverageMin)
      && (o == Skip(WeakFlat) <==>
          f.Ok? && f.fused.voting != [] && inputs.coverage >= orch.coverageMin && f.fused.direction == FLAT)
      && (o.Persist? <==> Kept(f, inputs, orch))
    ensures
      var own, f := Fuse(inputs.signals, inputs.weights, orch.threshold), FusedWithContext(inputs, orch.threshold);
      && f.Ok? == own.Ok?
      && (own.Ok? ==>
            f.fused == if inputs.parent.Some? then ApplyContext(own.fused, inputs.parent.value) else own.fused)
    ensures
      var f, o := FusedWithContext(inputs, orch.threshold), ComputeDecision(inputs, orch, p);
      Kept(f, inputs, orch) ==>
        && o.fused == f.fused && o.risk == Assessed(f.fused.direction, inputs.atr, inputs.price, inputs.gate, p)
        && (o.status == ANALYSIS && o.veto == Some(LowAgreement) <==> f.fused.agreement < orch.agreementMin)
        && (o.status == BLOCKED <==>
            f.fused.agreement >= orch.agreementMin && !GatesPass(inputs, f.fused.direction, p))
        && (o.status == BLOCKED ==> o.veto == Some(FailedGate(FirstFailed(inputs, f.fused.direction, p))))
        && (o.status == ANALYSIS && o.veto == Some(RiskDisabled) <==>
            f.fused.agreement >= orch.agreementMin && GatesPass(inputs, f.fused.direction, p) && !p.riskEnabled)
        && (o.status == PAPER && o.veto == None <==>
            f.fused.agreement >= orch.agreementMin && GatesPass(inputs, f.fused.direction, p) && p.riskEnabled)
  {
    hide Fuse, ApplyContext, Assessed, GatesPass, FirstFailed, FirstFailing, ComputeSizing;
    var f := FusedWithContext(inputs, orch.threshold);
    if Kept(f, inputs, orch) {
      AssessedIs(inputs, f.fused.direction, p);
    }
  }

  // ---- context ----------------------------------------------------------------------------

  /**
   * A parent context can veto but neither create nor turn a paper intent: every PAPER decision goes the way of the
   * agents' own fused score.
   */
  lemma ContextOnlyVetoes(inputs: Inputs, orch: OrchParams, p: RiskParams)
    requires Confident(inputs.signals) && orch.agreementMin > 0.0
    requires inputs.parent.Some? ==> 0.0 <= inputs.parent.value.weight < 2.0 * orch.threshold
    requires IsPaper(ComputeDecision(inputs, orch, p))
    ensures
      var own := Fuse(inputs.signals, inputs.weights, orch.threshold);
      own.Ok? && own.fused.direction != FLAT && ComputeDecision(inputs, orch, p).fused.direction == own.fused.direction
  {
    hide Assessed, Fuse, ApplyContext;
    var own := Fuse(inputs.signals, inputs.weights, orch.threshold);
    OwnSide(inputs.signals, inputs.weights, orch.threshold);
    FuseBounds(inputs.signals, inputs.weights, orch.threshold);
    if inputs.parent.Some? {
      ContextKeepsAgreement(own.fused, inputs.parent.value);
      if own.fused.direction != FLAT {
        ContextNeverReverses(own.fused, inputs.parent.value);
      }
    }
  }

  lemma ContextKeepsAgreement(f: Fused, context: Context)
    ensures ApplyContext(f, context).agreement == f.agreement && ApplyContext(f, context).voting == f.voting
  {
  }

  lemma OwnSide(signals: map<Agent, AgentSignal>, weights: map<Agent, real>, threshold: real)
    ensures
      var o := Fuse(signals, weights, threshold);
      o.Ok? && o.fused.voting != [] ==>
        o.fused.direction == DirectionForScore(o.fused.score, o.fused.threshold) && o.fused.threshold == threshold
  {
    hide Voters, Renormalized, Blend, Aligning, Round6, Round4;
  }

  // ---- exposure ---------------------------------------------------------------------------

  lemma QuotientBack(x: real, t: real, u: real)
    requires t > 0.0 && u <= x / t + HALF_MICRO
    ensures u * t <= x + HALF_MICRO * t
  {
    var q := x / t;
    assert q * t == x;
    assert u * t <= (q + HALF_MICRO) * t;
  }

  lemma UnitsBounds(price: real, sl: real, budget: real, cap: real)
    requires price > 0.0
    ensures UnitsFor(price, sl, budget, cap) * price <= cap + HALF_MICRO * price
    ensures sl > 0.0 ==> UnitsFor(price, sl, budget, cap) * sl <= budget + HALF_MICRO * sl
  {
    hide Round6;
    var units := UnitsFor(price, sl, budget, cap);
    Round6Near(RawUnits(price, sl, budget, cap));
    assert units <= cap / price + HALF_MICRO && units <= ByRisk(sl, budget) + HALF_MICRO;
    QuotientBack(cap, price, units);
    if sl > 0.0 {
      QuotientBack(budget, sl, units);
    }
  }

  /** Notional and risk of the sized position, up to the rounding of the units. */
  lemma SizingBounds(price: real, atr: real, direction: Direction, p: RiskParams)
    requires price > 0.0
    ensures
      var s := ComputeSizing(price, atr, direction, p);
      && s.units * price <= NotionalCap(p) + HALF_MICRO * price
      && (StopDistance(atr, p) > 0.0 ==>
            s.units * StopDistance(atr, p) <= RiskBudget(p) + HALF_MICRO * StopDistance(atr, p))
  {
    hide UnitsFor, RiskBudget, NotionalCap, StopDistance, Round8, Round4;
    UnitsBounds(price, StopDistance(atr, p), RiskBudget(p), NotionalCap(p));
  }

  const HALF_NANO := 0.000000005

  lemma Round8Near(x: real)
    ensures -HALF_NANO <= Round8(x) - x <= HALF_NANO
  {
    RoundIntNear(x * 100000000.0);
  }

  /** Stop and target stand on the two sides of the price that make the one a loss and the other a gain. */
  lemma StopsStraddle(price: real, atr: real, direction: Direction, p: RiskParams)
    requires direction != FLAT
    ensures
      var s := ComputeSizing(price, atr, direction, p);
      if direction == LONG then
        && Abs(s.stopLoss - (price - StopDistance(atr, p))) <= HALF_NANO
        && Abs(s.takeProfit - (price + TargetDistance(atr, p))) <= HALF_NANO
      else
        && Abs(s.stopLoss - (price + StopDistance(atr, p))) <= HALF_NANO
        && Abs(s.takeProfit - (price - TargetDistance(atr, p))) <= HALF_NANO
  {
    hide Round8, Round4, UnitsFor, StopDistance, TargetDistance;
    var sign, sl, tp := SignOf(direction) as real, StopDistance(atr, p), TargetDistance(atr, p);
    SignTimes(direction, sl);
    SignTimes(direction, tp);
    Round8Near(price - sign * sl);
    Round8Near(price + sign * tp);
  }

  lemma SignTimes(direction: Direction, x: real)
    requires direction != FLAT
    ensures (SignOf(direction) as real) * x == if direction == LONG then x else -x
  {
    if direction == LONG {
      assert SignOf(direction) as real == 1.0;
    } else {
      assert SignOf(direction) as real == -1.0;
    }
  }

  const HALF_PIP := 0.00005

  lemma Round4Near(x: real)
    ensures -HALF_PIP <= Round4(x) - x <= HALF_PIP
  {
    RoundIntNear(x * 10000.0);
  }

  lemma RatioOfMultiples(atr: real, p: RiskParams)
    requires p.slMultiple > 0.0 && atr > 0.0
    ensures StopDistance(atr, p) > 0.0 && TargetDistance(atr, p) / StopDistance(atr, p) == p.tpMultiple / p.slMultiple
  {
    var q := p.tpMultiple / p.slMultiple;
    assert q * p.slMultiple == p.tpMultiple;
    assert q * (p.slMultiple * atr) == p.tpMultiple * atr;
  }

  lemma NoStopWithoutMultiple(atr: real, p: RiskParams)
    requires p.slMultiple <= 0.0 && atr > 0.0
    ensures StopDistance(atr, p) <= 0.0
  {
  }

  lemma SizingParts(price: real, atr: real, direction: Direction, p: RiskParams)
    ensures
      var s, stop, target := ComputeSizing(price, atr, direction, p), StopDistance(atr, p), TargetDistance(atr, p);
      && s.rr == (if stop > 0.0 then Round4(target / stop) else 0.0)
      && s.riskPct == Min(RiskShare(s.units, price, stop, p.paperEquity), 1.0)
  {
    hide RiskShare, Round4, Round8, UnitsFor, RiskBudget, NotionalCap, SignOf, StopDistance, TargetDistance;
  }

  /** The reward-to-risk ratio is that of the two configured multiples, up to rounding, whatever price and ATR are. */
  lemma RatioIsConfigured(price: real, atr: real, direction: Direction, p: RiskParams)
    requires atr > 0.0
    ensures
      var rr := ComputeSizing(price, atr, direction, p).rr;
      if p.slMultiple > 0.0 then Abs(rr - p.tpMultiple / p.slMultiple) <= HALF_PIP else rr == 0.0
  {
    hide Round4, ComputeSizing, StopDistance, TargetDistance;
    SizingParts(price, atr, direction, p);
    if p.slMultiple > 0.0 {
      RatioOfMultiples(atr, p);
      Round4Near(p.tpMultiple / p.slMultiple);
    } else {
      NoStopWithoutMultiple(atr, p);
    }
  }

  /** The units are the smaller of what the risk buys at the stop distance and what the cap buys at the price. */
  lemma UnitsAreLesser(price: real, atr: real, direction: Direction, p: RiskParams)
    requires price > 0.0
    ensures
      var s, stop := ComputeSizing(price, atr, direction, p), Times(p.slMultiple, atr);
      var byRisk := if stop > 0.0 then Times(p.paperEquity, p.maxRisk) / stop else 0.0;
      Abs(s.units - Min(byRisk, Times(p.paperEquity, p.maxExposure) / price)) <= HALF_MICRO
      && s.price == price && s.atr == atr
  {
    hide Round4, Round6, Round8, SignOf, Times;
    Parameters(atr, p);
    Round6Near(RawUnits(price, StopDistance(atr, p), RiskBudget(p), NotionalCap(p)));
  }

  lemma Parameters(atr: real, p: RiskParams)
    ensures StopDistance(atr, p) == Times(p.slMultiple, atr) && TargetDistance(atr, p) == Times(p.tpMultiple, atr)
    ensures RiskBudget(p) == Times(p.paperEquity, p.maxRisk) && NotionalCap(p) == Times(p.paperEquity, p.maxExposure)
  {
  }

  lemma RatioTimes(units: real, price: real, stop: real, equity: real)
    requires equity != 0.0
    ensures units * price * stop / equity == Times(price, Times(units, stop) / equity)
  {
    var q := units * stop / equity;
    assert q * equity == units * stop;
    assert price * q * equity == units * price * stop;
  }

  lemma ShareOfNotional(units: real, price: real, stop: real, equity: real)
    ensures
      RiskShare(units, price, stop, equity) ==
      if equity == 0.0 then 0.0 else Round4(Times(price, Times(units, stop) / equity))
  {
    hide Round4;
    if equity != 0.0 {
      var x, y := units * price * stop / equity, Times(price, Times(units, stop) / equity);
      assert RiskShare(units, price, stop, equity) == Round4(x);
      RatioTimes(units, price, stop, equity);
      assert x == y;
    }
  }

  /**
   * The reported risk share is the money at risk over the equity, times the price of a unit: it is the share of the account
   * the stop puts at risk only at a price of one. It is at most one, and zero without equity.
   */
  lemma RiskShareIsTimesPrice(price: real, atr: real, direction: Direction, p: RiskParams)
    ensures
      var s := ComputeSizing(price, atr, direction, p);
      && s.riskPct <= 1.0
      && (if p.paperEquity == 0.0 then s.riskPct == 0.0
          else
            var share := Times(s.units, Times(p.slMultiple, atr)) / p.paperEquity;
            Abs(s.riskPct - Min(1.0, Times(price, share))) <= HALF_PIP)
  {
    hide Round4, ComputeSizing, RiskShare, Times, StopDistance, TargetDistance;
    Parameters(atr, p);
    SizingParts(price, atr, direction, p);
    var units := ComputeSizing(price, atr, direction, p).units;
    ShareOfNotional(units, price, StopDistance(atr, p), p.paperEquity);
    if p.paperEquity != 0.0 {
      Round4Near(Times(price, Times(units, StopDistance(atr, p)) / p.paperEquity));
    }
  }

  /**
   * What the exposure gate and the sizing give together: the candidate's notional on top of the used exposure stays
   * within twice the cap less the risk share, not within the cap.
   */
  lemma ExposureBound(inputs: Inputs, orch: OrchParams, p: RiskParams)
    requires p.paperEquity >= 0.0 && IsPaper(ComputeDecision(inputs, orch, p))
    ensures
      var o := ComputeDecision(inputs, orch, p);
      && o.risk.sizing.Some? && inputs.price.Some?
      && inputs.gate.exposureUsed * p.paperEquity + o.risk.sizing.value.units * inputs.price.value <=
           (2.0 * p.maxExposure - p.maxRisk) * p.paperEquity + HALF_MICRO * inputs.price.value
  {
    hide FusedWithContext, ComputeSizing, AllGatesOk, MayPromote;
    PaperIff(inputs, orch, p);
    PromotedFacts(inputs, orch, p);
    var f := FusedWithContext(inputs, orch.threshold).fused;
    SizingBounds(inputs.price.value, inputs.atr.value, f.direction, p);
    UsedTimesEquity(inputs.gate.exposureUsed, p.maxExposure - p.maxRisk, p.paperEquity);
  }

  lemma PromotedFacts(inputs: Inputs, orch: OrchParams, p: RiskParams)
    requires MayPromote(inputs, orch, p)
    ensures Sizable(inputs.atr, inputs.price) && FusedWithContext(inputs, orch.threshold).Ok?
    ensures inputs.gate.exposureUsed <= p.maxExposure - p.maxRisk
  {
  }

  lemma UsedTimesEquity(used: real, cap: real, equity: real)
    requires used <= cap && equity >= 0.0
    ensures used * equity <= cap * equity
  {
  }

  // ---- when the exposure cap holds ------------------------------------------------------------

  /** Notional before units are rounded: what the risk budget buys at the stop distance, within the cap. */
  function RawNotional(price: real, sl: real, budget: real, cap: real): real {
    Min(if sl > 0.0 then budget * price / sl else 0.0, cap)
  }

  /** Used exposure plus the candidate's notional stays within the exposure cap. */
  predicate CapHolds(used: real, p: RiskParams, notional: real) {
    used * p.paperEquity + notional <= NotionalCap(p)
  }

  /** The test on percentages: nothing is used yet, or the risk share at this stop distance fits in what is left. */
  predicate ShareFits(used: real, price: real, sl: real, p: RiskParams) {
    used <= 0.0 || (if sl > 0.0 then p.maxRisk * price <= (p.maxExposure - used) * sl else used <= p.maxExposure)
  }

  lemma TimesMonotone(a: real, b: real, price: real)
    requires a <= b && price > 0.0
    ensures Times(a, price) <= Times(b, price)
  {
    assert (b - a) * price >= 0.0;
  }

  lemma TimesSum(a: real, b: real, price: real)
    ensures Times(a + b, price) == Times(a, price) + Times(b, price)
  {
  }

  lemma NearTimes(a: real, b: real, eps: real, price: real)
    requires -eps <= a - b <= eps && price > 0.0
    ensures Abs(Times(a, price) - Times(b, price)) <= Times(eps, price)
  {
    hide Times;
    TimesSum(b, eps, price);
    TimesMonotone(a, b + eps, price);
    TimesSum(a, eps, price);
    TimesMonotone(b, a + eps, price);
  }

  lemma ScaledMin(a: real, b: real, price: real)
    requires price > 0.0
    ensures Times(Min(a, b), price) == Min(Times(a, price), Times(b, price))
  {
    hide Times;
    if a <= b {
      TimesMonotone(a, b, price);
    } else {
      TimesMonotone(b, a, price);
    }
  }

  lemma QuotientTimes(x: real, t: real, price: real)
    requires t > 0.0
    ensures Times(x / t, price) == x * price / t
  {
  }

  lemma QuotientBackTimes(x: real, t: real)
    requires t > 0.0
    ensures Times(x / t, t) == x
  {
  }

  lemma RawUnitsIs(price: real, sl: real, budget: real, cap: real)
    requires price > 0.0
    ensures RawUnits(price, sl, budget, cap) == Min(ByRisk(sl, budget), cap / price)
    ensures RawNotional(price, sl, budget, cap) == Min(Times(ByRisk(sl, budget), price), cap)
  {
    hide Times;
    if sl > 0.0 {
      QuotientTimes(budget, sl, price);
    } else {
      NothingTimes(price);
    }
  }

  lemma RawIsScaled(price: real, sl: real, budget: real, cap: real)
    requires price > 0.0
    ensures Times(RawUnits(price, sl, budget, cap), price) == RawNotional(price, sl, budget, cap)
  {
    hide Times, Min, RawUnits, RawNotional, ByRisk;
    RawUnitsIs(price, sl, budget, cap);
    QuotientBackTimes(cap, price);
    ScaledMin(ByRisk(sl, budget), cap / price, price);
  }

  lemma NothingTimes(price: real)
    ensures Times(0.0, price) == 0.0
  {
  }

  /** Rounding the units moves the notional by at most half a micro-unit at the price. */
  lemma UnitsNearRaw(price: real, sl: real, budget: real, cap: real)
    requires price > 0.0
    ensures
      Abs(Times(UnitsFor(price, sl, budget, cap), price) - RawNotional(price, sl, budget, cap)) <= Times(HALF_MICRO, price)
  {
    hide Round6, RawUnits, RawNotional, Times;
    Round6Near(RawUnits(price, sl, budget, cap));
    NearTimes(UnitsFor(price, sl, budget, cap), RawUnits(price, sl, budget, cap), HALF_MICRO, price);
    RawIsScaled(price, sl, budget, cap);
  }

  lemma DivideLe(x: real, t: real, y: real)
    requires t > 0.0
    ensures x / t <= y <==> x <= y * t
  {
    assert x / t * t == x;
    if x / t <= y {
      assert x / t * t <= y * t;
    } else {
      assert x / t * t > y * t;
    }
  }

  lemma ScaleLe(a: real, b: real, e: real)
    requires e > 0.0
    ensures a * e <= b * e <==> a <= b
  {
    if a <= b {
      assert a * e <= b * e;
    } else {
      assert a * e > b * e;
    }
  }

  /** Before rounding the cap holds exactly when the shares fit; equity does not matter. */
  lemma RawFitsIff(used: real, p: RiskParams, price: real, sl: real)
    requires p.paperEquity > 0.0
    ensures CapHolds(used, p, RawNotional(price, sl, RiskBudget(p), NotionalCap(p))) <==> ShareFits(used, price, sl, p)
  {
    var e := p.paperEquity;
    var room := p.maxExposure - used;
    assert NotionalCap(p) - used * e == room * e;
    ScaleLe(p.maxExposure, room, e);
    assert NotionalCap(p) == p.maxExposure * e;
    if sl > 0.0 {
      var share := p.maxRisk * price;
      assert RiskBudget(p) * price == share * e;
      DivideLe(share * e, sl, room * e);
      assert room * e * sl == (room * sl) * e;
      ScaleLe(share, room * sl, e);
    } else {
      ScaleLe(0.0, room, e);
    }
  }

  /** Share of the equity that the rounding of the units can move. */
  function Margin(price: real, p: RiskParams): real
    requires p.paperEquity != 0.0
  {
    Times(HALF_MICRO, price) / p.paperEquity
  }

  /** A little more or less notional is a little more or less exposure in use. */
  lemma MarginShifts(used: real, p: RiskParams, price: real, notional: real, raw: real)
    requires p.paperEquity > 0.0 && Abs(notional - raw) <= Times(HALF_MICRO, price)
    ensures CapHolds(used + Margin(price, p), p, raw) ==> CapHolds(used, p, notional)
    ensures CapHolds(used, p, notional) ==> CapHolds(used - Margin(price, p), p, raw)
  {
    hide NotionalCap;
    var x, e := Times(HALF_MICRO, price), p.paperEquity;
    QuotientBackTimes(x, e);
    assert Margin(price, p) * e == x;
    assert (used + Margin(price, p)) * e == used * e + Margin(price, p) * e;
    assert (used - Margin(price, p)) * e == used * e - Margin(price, p) * e;
  }

  /**
   * For a PAPER decision the notional is the unrounded one within half a micro-unit at the price. The unrounded one keeps
   * the exposure cap exactly when a test on the percentages passes, which is not the one the exposure gate makes; with the
   * rounding's share of the equity as margin the same test is sufficient and necessary for the decision itself.
   */
  lemma ExposureCapIff(inputs: Inputs, orch: OrchParams, p: RiskParams)
    requires IsPaper(ComputeDecision(inputs, orch, p))
    ensures inputs.price.Some? && inputs.atr.Some? && ComputeDecision(inputs, orch, p).risk.sizing.Some?
    ensures
      var used, price, sl := inputs.gate.exposureUsed, inputs.price.value, StopDistance(inputs.atr.value, p);
      var notional := ComputeDecision(inputs, orch, p).risk.sizing.value.units * price;
      var raw := RawNotional(price, sl, RiskBudget(p), NotionalCap(p));
      && Abs(notional - raw) <= HALF_MICRO * price
      && (p.paperEquity > 0.0 ==>
            && (CapHolds(used, p, raw) <==> ShareFits(used, price, sl, p))
            && (ShareFits(used + Margin(price, p), price, sl, p) ==> CapHolds(used, p, notional))
            && (CapHolds(used, p, notional) ==> ShareFits(used - Margin(price, p), price, sl, p)))
  {
    hide ComputeDecision, UnitsFor, RawNotional, ShareFits, RiskBudget, StopDistance, NotionalCap, CapHolds, Margin,
         Times;
    PaperUnits(inputs, orch, p);
    var price, sl := inputs.price.value, StopDistance(inputs.atr.value, p);
    var units := UnitsFor(price, sl, RiskBudget(p), NotionalCap(p));
    TimesIs(units, price);
    TimesIs(HALF_MICRO, price);
    UnitsNearRaw(price, sl, RiskBudget(p), NotionalCap(p));
    if p.paperEquity > 0.0 {
      SizedWithMargin(inputs.gate.exposureUsed, p, price, sl, Times(units, price));
    }
  }

  lemma TimesIs(a: real, price: real)
    ensures Times(a, price) == a * price
  {
  }

  lemma SizedWithMargin(used: real, p: RiskParams, price: real, sl: real, notional: real)
    requires p.paperEquity > 0.0
    requires Abs(notional - RawNotional(price, sl, RiskBudget(p), NotionalCap(p))) <= Times(HALF_MICRO, price)
    ensures CapHolds(used, p, RawNotional(price, sl, RiskBudget(p), NotionalCap(p))) <==> ShareFits(used, price, sl, p)
    ensures ShareFits(used + Margin(price, p), price, sl, p) ==> CapHolds(used, p, notional)
    ensures CapHolds(used, p, notional) ==> ShareFits(used - Margin(price, p), price, sl, p)
  {
    hide RawNotional, ShareFits, RiskBudget, NotionalCap, CapHolds, Margin, Times;
    RawFitsIff(used, p, price, sl);
    RawFitsIff(used + Margin(price, p), p, price, sl);
    RawFitsIff(used - Margin(price, p), p, price, sl);
    MarginShifts(used, p, price, notional, RawNotional(price, sl, RiskBudget(p), NotionalCap(p)));
  }

  /** The units of a PAPER decision, from its inputs. */
  lemma PaperUnits(inputs: Inputs, orch: OrchParams, p: RiskParams)
    requires IsPaper(ComputeDecision(inputs, orch, p))
    ensures inputs.price.Some? && inputs.atr.Some? && inputs.price.value > 0.0
    ensures
      var sizing := ComputeDecision(inputs, orch, p).risk.sizing;
      sizing.Some? &&
      sizing.value.units ==
      UnitsFor(inputs.price.value, StopDistance(inputs.atr.value, p), RiskBudget(p), NotionalCap(p))
  {
    hide FusedWithContext, AllGatesOk, MayPromote, UnitsFor, RiskBudget, StopDistance, NotionalCap, Round4, Round8,
         TargetDistance;
    PaperIff(inputs, orch, p);
    PromotedFacts(inputs, orch, p);
  }

  // ---- a decision over the cap ------------------------------------------------------------------

  function OverCapParams(): RiskParams {
    RiskParams(0.01, 0.30, 0.03, 0.10, 1.5, 1.5, 2.5, 0.15, true, 100000.0)
  }

  /** One sure vote at price 100 with 29 of 30 percent of the exposure in use. */
  function OverCapInputs(): Inputs {
    Inputs(SureVote(LONG), TECHNICAL_ONLY, Some(1.0), Some(100.0), 1.0, GateState(0.29, 0.0, 0.0, 0.0, false), None)
  }

  lemma OverCapSizing()
    ensures
      var s := ComputeSizing(100.0, 1.0, LONG, OverCapParams());
      s.units == 300.0 && s.rr >= 1.5
  {
    hide Round8, RoundInt;
    RoundWhole(300000000);
    assert Round6(300.0) == 300.0;
    assert UnitsFor(100.0, 1.5, 1000.0, 30000.0) == 300.0;
    RoundBetween(2.5 / 1.5 * 10000.0, 16666, 16667);
  }

  /** The cap can be exceeded: this decision is PAPER and brings the exposure to 59 percent. */
  lemma ExposureCapExceeded()
    ensures
      var o := ComputeDecision(OverCapInputs(), OrchParams(0.5, 0.5, 0.15), OverCapParams());
      && IsPaper(o) && o.risk.sizing.Some? && o.risk.sizing.value.units == 300.0
      && OverCapInputs().gate.exposureUsed * OverCapParams().paperEquity + o.risk.sizing.value.units * 100.0 ==
         0.59 * OverCapParams().paperEquity
  {
    hide ComputeSizing, Fuse;
    var inputs, orch, p := OverCapInputs(), OrchParams(0.5, 0.5, 0.15), OverCapParams();
    SureFuse(LONG, 0.15);
    OverCapSizing();
    PaperIff(inputs, orch, p);
  }
}
