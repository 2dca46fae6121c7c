/** app.py: the calculator with a 49% profit target, whose function also
    returns the tick value, and whose page starts with a placeholder in the
    instrument list and computes nothing until a real instrument is chosen. */
module App {
  import opened Instruments
  import opened RiskCalculator

  /** The profit-target fraction of app.py. */
  const TargetFraction: real := 0.49

  /** The first entry of the selection list, which selects nothing. */
  const Placeholder: string := "--Select an Instrument--"

  /** The six values app.py's function returns, in return order. */
  datatype AppFigures = AppFigures(
    targetProfit: real,
    targetTicks: real,
    targetPoints: real,
    stopLossTicks: real,
    stopLossPoints: real,
    tickValue: real)

  /** What one run of the page shows. */
  datatype Screen =
    | SelectPrompt   // the info message: nothing selected yet
    | Details(name: string, instrument: Instrument, tickValue: real, pointValue: real,
              panel: Panel<AppFigures>)

  /** app.py's `calculate_ticks_and_points`: the shared conversion with
      fraction 0.49, plus the tick value as a sixth value. */
  function CalculateTicksAndPoints(openingProfit: real, riskAmount: real,
                                   tickIndex: real, contractSize: real): (r: AppFigures)
    requires tickIndex * contractSize != 0.0
    ensures r.tickValue == tickIndex * contractSize
    ensures r.targetProfit == 0.49 * openingProfit
    ensures ConvertsBack(r.targetTicks, r.tickValue, r.targetProfit)
    ensures ConvertsBack(r.stopLossTicks, r.tickValue, riskAmount)
    ensures TicksPerPoint * r.targetPoints == r.targetTicks
    ensures TicksPerPoint * r.stopLossPoints == r.stopLossTicks
  {
    var f := RiskCalculator.CalculateTicksAndPoints(TargetFraction, openingProfit, riskAmount,
                                                    tickIndex, contractSize);
    AppFigures(f.targetProfit, f.targetTicks, f.targetPoints, f.stopLossTicks, f.stopLossPoints,
               tickIndex * contractSize)
  }

  /** The options of the selection box: the placeholder, then the registry's
      names in declaration order. */
  function Options(): seq<string>
  {
    [Placeholder] + Names()
  }

  /** The "Calculate" section for an instrument: nothing until the button is
      pressed, then the warning or the results depending on the guard. */
  function CalculatePanel(inst: Instrument, openingProfit: real, riskAmount: real, pressed: bool)
    : (p: Panel<AppFigures>)
    requires WellFormed(inst)
    ensures p.NotRequested? <==> !pressed
    ensures p.InvalidInputs? <==> pressed && !ValidInputs(openingProfit, riskAmount)
    ensures p.Shown? <==> pressed && ValidInputs(openingProfit, riskAmount)
    ensures p.Shown? ==>
      var r := p.result;
      && p.openingProfit == openingProfit
      && r.tickValue == TickValue(inst)
      && r.targetProfit == TargetFraction * openingProfit
      && ConvertsBack(r.targetTicks, r.tickValue, r.targetProfit)
      && ConvertsBack(r.stopLossTicks, r.tickValue, riskAmount)
      && TicksPerPoint * r.targetPoints == r.targetTicks
      && TicksPerPoint * r.stopLossPoints == r.stopLossTicks
      && r.targetProfit > 0.0 && r.targetTicks > 0.0 && r.targetPoints > 0.0
      && r.stopLossTicks >= 0.0 && r.stopLossPoints >= 0.0
  {
    WellFormedTickValue(inst);
    if !pressed then NotRequested
    else if ValidInputs(openingProfit, riskAmount) then
      Shown(openingProfit,
            CalculateTicksAndPoints(openingProfit, riskAmount, inst.tickIndex, inst.contractSize))
    else InvalidInputs
  }

  /** One run of the page for the selection, the two number inputs and whether
      the button was pressed. The selection box only ever yields one of its
      options. */
  function Run(selection: string, openingProfit: real, riskAmount: real, pressed: bool): (s: Screen)
    requires selection in Options()
    ensures s.SelectPrompt? <==> selection == Placeholder
    ensures s.Details? ==>
      && selection in Table()
      && s.name == selection
      && s.instrument == Table()[selection]
      && WellFormed(s.instrument)
      && s.tickValue == TickValue(s.instrument) > 0.0
      && s.pointValue == 4.0 * s.tickValue
      && s.panel == CalculatePanel(s.instrument, openingProfit, riskAmount, pressed)
  {
    if selection == Placeholder then SelectPrompt
    else
      OptionIsKey(selection);
      var inst := Table()[selection];
      TableWellFormed(selection);
      Details(selection, inst, TickValue(inst), PointValue(inst),
              CalculatePanel(inst, openingProfit, riskAmount, pressed))
  }

  /** The points shown convert back to dollars at the point value the page
      displays: target points to the target profit, stop-loss points to the
      risk amount. */
  lemma PointsConvertBack(inst: Instrument, openingProfit: real, riskAmount: real, pressed: bool)
    requires WellFormed(inst)
    ensures var p := CalculatePanel(inst, openingProfit, riskAmount, pressed);
      p.Shown? ==>
        && ConvertsBack(p.result.targetPoints, PointValue(inst), p.result.targetProfit)
        && ConvertsBack(p.result.stopLossPoints, PointValue(inst), riskAmount)
  {
    var p := CalculatePanel(inst, openingProfit, riskAmount, pressed);
    if p.Shown? {
      var r := p.result;
      RiskCalculator.PointsConvertBack(r.targetPoints, r.targetTicks, TickValue(inst), r.targetProfit);
      RiskCalculator.PointsConvertBack(r.stopLossPoints, r.stopLossTicks, TickValue(inst), riskAmount);
    }
  }

  /** The selection list is the placeholder followed by the six registry
      names, and the placeholder is not an instrument. */
  lemma OptionsShape()
    ensures |Options()| == 7
    ensures Options()[0] == Placeholder
    ensures Options()[1..] == Names()
    ensures Placeholder !in Table()
  {
    NamesDistinct();
    NamesAreKeys(Placeholder);
    forall i | 0 <= i < |Names()|
      ensures Names()[i] != Placeholder
    {
      assert Names()[i] == FuturesEntries[i].0;
      assert |FuturesEntries[i].0| != |Placeholder| by {
        if i == 0 {} else if i == 1 {} else if i == 2 {} else if i == 3 {} else if i == 4 {} else {}
      }
    }
  }

  /** Any option other than the placeholder is a key of the registry, so the
      lookup never fails. */
  lemma OptionIsKey(selection: string)
    requires selection in Options()
    requires selection != Placeholder
    ensures selection in Table()
  {
  }

  /** The number inputs never go below 0.0. Under that bound the warning
      appears exactly when the button is pressed with an opening profit of 0. */
  lemma WarningOnlyForZeroProfit(selection: string, openingProfit: real, riskAmount: real,
                                 pressed: bool)
    requires selection in Options() && selection != Placeholder
    requires openingProfit >= 0.0 && riskAmount >= 0.0
    ensures Run(selection, openingProfit, riskAmount, pressed).panel.InvalidInputs?
            <==> pressed && openingProfit == 0.0
  {
  }

  /** A risk amount of 0 shows 0 stop-loss ticks and points. */
  lemma ZeroRiskShowsZeroStopLoss(inst: Instrument, openingProfit: real)
    requires WellFormed(inst)
    requires openingProfit > 0.0
    ensures var p := CalculatePanel(inst, openingProfit, 0.0, true);
      p.Shown? && p.result.stopLossTicks == 0.0 && p.result.stopLossPoints == 0.0
  {
  }

  /** The Nasdaq example with 1000 dollars of opening profit and 200 of risk:
      a 490 dollar target, 98 ticks (24.5 points) to reach it, and 40 ticks
      (10 points) of stop loss, at 5 dollars a tick and 20 a point. */
  lemma NasdaqExample()
    ensures var s := Run("Nasdaq 100 (Mini)", 1000.0, 200.0, true);
      && s.Details?
      && s.tickValue == 5.0 && s.pointValue == 20.0
      && s.panel == Shown(1000.0, AppFigures(490.0, 98.0, 24.5, 40.0, 10.0, 5.0))
  {
    NameLooksUpEntry(0);
    OptionsShape();
    var s := Run("Nasdaq 100 (Mini)", 1000.0, 200.0, true);
    assert s.instrument == Instrument("NQ=F", 0.25, 20.0);
  }
}
