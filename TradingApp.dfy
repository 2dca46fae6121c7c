/** tradingapp.py: the calculator with a 30% profit target, whose function
    returns five values, whose selection list has no placeholder, and whose
    call site passes the tick value where the function expects the tick
    index. */
module TradingApp {
  import opened Instruments
  import opened RiskCalculator

  /** The profit-target fraction of tradingapp.py. */
  const TargetFraction: real := 0.30

  /** What one run of the page shows: the instrument details are always there. */
  datatype Screen = Screen(name: string, instrument: Instrument, tickValue: real, pointValue: real,
                           panel: Panel<Figures>)

  /** tradingapp.py's `calculate_ticks_and_points`: the shared conversion
      with fraction 0.30; it returns the five figures and no tick value. */
  function CalculateTicksAndPoints(openingProfit: real, riskAmount: real,
                                   tickIndex: real, contractSize: real): (r: Figures)
    requires tickIndex * contractSize != 0.0
    ensures r.targetProfit == 0.30 * openingProfit
    ensures ConvertsBack(r.targetTicks, tickIndex * contractSize, r.targetProfit)
    ensures ConvertsBack(r.stopLossTicks, tickIndex * contractSize, riskAmount)
    ensures TicksPerPoint * r.targetPoints == r.targetTicks
    ensures TicksPerPoint * r.stopLossPoints == r.stopLossTicks
  {
    RiskCalculator.CalculateTicksAndPoints(TargetFraction, openingProfit, riskAmount,
                                           tickIndex, contractSize)
  }

  /** The "Calculate" section as written: the call passes the tick value
      `tickIndex * contractSize` in the tick-index slot, so the function
      divides by `tickIndex * contractSize * contractSize`. */
  function CalculatePanel(inst: Instrument, openingProfit: real, riskAmount: real, pressed: bool)
    : (p: Panel<Figures>)
    requires WellFormed(inst)
    ensures p.NotRequested? <==> !pressed
    ensures p.InvalidInputs? <==> pressed && !ValidInputs(openingProfit, riskAmount)
    ensures p.Shown? <==> pressed && ValidInputs(openingProfit, riskAmount)
    ensures p.Shown? ==>
      var r := p.result;
      && p.openingProfit == openingProfit
      && r.targetProfit == TargetFraction * openingProfit
      && ConvertsBack(r.targetTicks, TickValue(inst) * inst.contractSize, r.targetProfit)
      && ConvertsBack(r.stopLossTicks, TickValue(inst) * inst.contractSize, riskAmount)
      && TicksPerPoint * r.targetPoints == r.targetTicks
      && TicksPerPoint * r.stopLossPoints == r.stopLossTicks
      && r.targetProfit > 0.0 && r.targetTicks > 0.0 && r.targetPoints > 0.0
      && r.stopLossTicks >= 0.0 && r.stopLossPoints >= 0.0
  {
    WellFormedTickValue(inst);
    var tickValue := inst.tickIndex * inst.contractSize;
    var contractSize := inst.contractSize;
    if !pressed then NotRequested
    else if ValidInputs(openingProfit, riskAmount) then
      Shown(openingProfit,
            CalculateTicksAndPoints(openingProfit, riskAmount, tickValue, contractSize))
    else InvalidInputs
  }

  /** One run of the page. The selection list is exactly the registry's names,
      so the lookup always succeeds. Since no registry instrument has a
      contract size of 1, shown ticks never convert back to the shown target
      profit at the displayed tick value. */
  function Run(selection: string, openingProfit: real, riskAmount: real, pressed: bool): (s: Screen)
    requires selection in Names()
    ensures selection in Table()
    ensures s.name == selection
    ensures s.instrument == Table()[selection]
    ensures WellFormed(s.instrument)
    ensures s.tickValue == TickValue(s.instrument) > 0.0
    ensures s.pointValue == 4.0 * s.tickValue
    ensures s.panel == CalculatePanel(s.instrument, openingProfit, riskAmount, pressed)
    ensures s.panel.Shown? ==> !ConvertsBack(s.panel.result.targetTicks, s.tickValue, s.panel.result.targetProfit)
  {
    NamesAreKeys(selection);
    var inst := Table()[selection];
    TableWellFormed(selection);
    ContractSizesNotOne(selection);
    TicksMisscaled(inst, openingProfit, riskAmount, pressed);
    Screen(selection, inst, TickValue(inst), PointValue(inst),
           CalculatePanel(inst, openingProfit, riskAmount, pressed))
  }

  /** Multiplying a non-zero amount by a factor other than 1 changes it. */
  lemma ScaledDiffers(x: real, q: real, d: real, c: real)
    requires ConvertsBack(q, d * c, x)
    requires x != 0.0
    requires c != 1.0
    ensures !ConvertsBack(q, d, x)
  {
    var y := q * d;
    assert y * c == x;
    assert y != 0.0;
    var k := 1.0 - c;
    assert y * k == y - x;
    if y > 0.0 {
      if k > 0.0 { assert y * k > 0.0; } else { assert y * k < 0.0; }
    } else {
      if k > 0.0 { assert y * k < 0.0; } else { assert y * k > 0.0; }
    }
  }

  /** For an instrument whose contract size is not 1, shown ticks do not
      convert back to the shown target profit at the displayed tick value, and
      a positive risk is not recovered from the stop-loss ticks either. */
  lemma TicksMisscaled(inst: Instrument, openingProfit: real, riskAmount: real,
                       pressed: bool)
    requires WellFormed(inst)
    requires inst.contractSize != 1.0
    ensures var p := CalculatePanel(inst, openingProfit, riskAmount, pressed);
      p.Shown? ==>
        && !ConvertsBack(p.result.targetTicks, TickValue(inst), p.result.targetProfit)
        && (riskAmount > 0.0 ==> !ConvertsBack(p.result.stopLossTicks, TickValue(inst), riskAmount))
  {
    var p := CalculatePanel(inst, openingProfit, riskAmount, pressed);
    if p.Shown? {
      var r := p.result;
      ScaledDiffers(r.targetProfit, r.targetTicks, TickValue(inst), inst.contractSize);
      if riskAmount > 0.0 {
        ScaledDiffers(riskAmount, r.stopLossTicks, TickValue(inst), inst.contractSize);
      }
    }
  }

  /** For an instrument whose contract size is not 1, the points shown do not
      convert back to the target profit at the displayed point value, and a
      positive risk is not recovered from the stop-loss points either. */
  lemma PointsMisscaled(inst: Instrument, openingProfit: real, riskAmount: real,
                        pressed: bool)
    requires WellFormed(inst)
    requires inst.contractSize != 1.0
    ensures var p := CalculatePanel(inst, openingProfit, riskAmount, pressed);
      p.Shown? ==>
        && !ConvertsBack(p.result.targetPoints, PointValue(inst), p.result.targetProfit)
        && (riskAmount > 0.0 ==> !ConvertsBack(p.result.stopLossPoints, PointValue(inst), riskAmount))
  {
    var p := CalculatePanel(inst, openingProfit, riskAmount, pressed);
    if p.Shown? {
      var r := p.result;
      var c := inst.contractSize;
      RiskCalculator.PointsConvertBack(r.targetPoints, r.targetTicks, TickValue(inst) * c, r.targetProfit);
      assert TicksPerPoint * (TickValue(inst) * c) == PointValue(inst) * c;
      ScaledDiffers(r.targetProfit, r.targetPoints, PointValue(inst), c);
      if riskAmount > 0.0 {
        RiskCalculator.PointsConvertBack(r.stopLossPoints, r.stopLossTicks, TickValue(inst) * c, riskAmount);
        ScaledDiffers(riskAmount, r.stopLossPoints, PointValue(inst), c);
      }
    }
  }

  /** The call as evidently intended: the raw tick index, as app.py passes it.
      Ticks then convert back to dollars at the displayed tick value. */
  function CorrectedPanel(inst: Instrument, openingProfit: real, riskAmount: real, pressed: bool)
    : (p: Panel<Figures>)
    requires WellFormed(inst)
    ensures p.NotRequested? <==> !pressed
    ensures p.InvalidInputs? <==> pressed && !ValidInputs(openingProfit, riskAmount)
    ensures p.Shown? <==> pressed && ValidInputs(openingProfit, riskAmount)
    ensures p.Shown? ==>
      var r := p.result;
      && p.openingProfit == openingProfit
      && r.targetProfit == TargetFraction * openingProfit
      && ConvertsBack(r.targetTicks, TickValue(inst), r.targetProfit)
      && ConvertsBack(r.stopLossTicks, TickValue(inst), riskAmount)
      && TicksPerPoint * r.targetPoints == r.targetTicks
      && TicksPerPoint * r.stopLossPoints == r.stopLossTicks
      && r.targetProfit > 0.0 && r.targetTicks > 0.0 && r.targetPoints > 0.0
      && r.stopLossTicks >= 0.0 && r.stopLossPoints >= 0.0
  {
    WellFormedTickValue(inst);
    if !pressed then NotRequested
    else if ValidInputs(openingProfit, riskAmount) then
      Shown(openingProfit,
            CalculateTicksAndPoints(openingProfit, riskAmount, inst.tickIndex, inst.contractSize))
    else InvalidInputs
  }

  /** With the raw tick index passed, the points shown convert back to the
      target profit and the risk at the displayed point value. */
  lemma CorrectedPointsConvertBack(inst: Instrument, openingProfit: real, riskAmount: real,
                                   pressed: bool)
    requires WellFormed(inst)
    ensures var p := CorrectedPanel(inst, openingProfit, riskAmount, pressed);
      p.Shown? ==>
        && ConvertsBack(p.result.targetPoints, PointValue(inst), p.result.targetProfit)
        && ConvertsBack(p.result.stopLossPoints, PointValue(inst), riskAmount)
  {
  }

  /** The two calls differ by exactly one factor of the contract size: the
      figures shown are the intended ones divided by it. */
  lemma MisscaledByContractSize(inst: Instrument, openingProfit: real,
                                riskAmount: real)
    requires WellFormed(inst)
    requires ValidInputs(openingProfit, riskAmount)
    ensures var shown := CalculatePanel(inst, openingProfit, riskAmount, true).result;
      var intended := CorrectedPanel(inst, openingProfit, riskAmount, true).result;
      && shown.targetProfit == intended.targetProfit
      && shown.targetTicks * inst.contractSize == intended.targetTicks
      && shown.stopLossTicks * inst.contractSize == intended.stopLossTicks
  {
  }

  /** The Nasdaq example with 1000 dollars of opening profit and 200 of risk:
      the page shows 3 target ticks where 60 are intended, and 2 stop-loss
      ticks where 40 are intended. */
  lemma NasdaqExample()
    ensures var s := Run("Nasdaq 100 (Mini)", 1000.0, 200.0, true);
      && s.tickValue == 5.0 && s.pointValue == 20.0
      && s.panel == Shown(1000.0, Figures(300.0, 3.0, 0.75, 2.0, 0.5))
      && CorrectedPanel(s.instrument, 1000.0, 200.0, true)
         == Shown(1000.0, Figures(300.0, 60.0, 15.0, 40.0, 10.0))
  {
    NameLooksUpEntry(0);
    var s := Run("Nasdaq 100 (Mini)", 1000.0, 200.0, true);
    assert s.instrument == Instrument("NQ=F", 0.25, 20.0);
  }
}
