/** `calculate_ticks_and_points`, the unit conversion both scripts define,
    written once with the profit-target fraction as a parameter (the scripts
    differ only in that literal), and the input guard both scripts place
    around its call. Exact `real` arithmetic stands for Python floats. */
module RiskCalculator {

  /** Four ticks make one point. */
  const TicksPerPoint: real := 4.0

  /** The five figures both versions of the function return, in return order. */
  datatype Figures = Figures(
    targetProfit: real,
    targetTicks: real,
    targetPoints: real,
    stopLossTicks: real,
    stopLossPoints: real)

  /** What the "Calculate" section of the page shows. */
  datatype Panel<R> =
    | NotRequested                          // button not pressed
    | InvalidInputs                         // the warning
    | Shown(openingProfit: real, result: R) // the three result cards

  /** The guard both scripts put around the call: `opening_profit > 0 and
      risk_amount >= 0`. */
  predicate ValidInputs(openingProfit: real, riskAmount: real)
  {
    openingProfit > 0.0 && riskAmount >= 0.0
  }

  /** A number of ticks converts back to a dollar amount at a tick value. */
  predicate ConvertsBack(ticks: real, tickValue: real, dollars: real)
  {
    ticks * tickValue == dollars
  }

  /** The conversion. The divisor is `tickIndex * contractSize`, the tick value
      the function computes; ticks are dollars divided by it, and points are
      ticks divided by four. Python raises on a zero divisor, hence the
      requires. */
  function CalculateTicksAndPoints(fraction: real, openingProfit: real, riskAmount: real,
                                   tickIndex: real, contractSize: real): (r: Figures)
    requires tickIndex * contractSize != 0.0
    ensures r.targetProfit == fraction * openingProfit
    ensures ConvertsBack(r.targetTicks, tickIndex * contractSize, r.targetProfit)
    ensures ConvertsBack(r.stopLossTicks, tickIndex * contractSize, riskAmount)
    ensures TicksPerPoint * r.targetPoints == r.targetTicks
    ensures TicksPerPoint * r.stopLossPoints == r.stopLossTicks
  {
    var tickValue := tickIndex * contractSize;
    var targetProfit := openingProfit * fraction;
    var targetTicks := targetProfit / tickValue;
    var stopLossTicks := riskAmount / tickValue;
    Figures(targetProfit, targetTicks, targetTicks / TicksPerPoint,
            stopLossTicks, stopLossTicks / TicksPerPoint)
  }

  /** Points convert back to dollars at four times the tick value, whenever
      the ticks they come from convert back at the tick value. */
  lemma PointsConvertBack(points: real, ticks: real, tickValue: real, dollars: real)
    requires TicksPerPoint * points == ticks
    requires ConvertsBack(ticks, tickValue, dollars)
    ensures ConvertsBack(points, TicksPerPoint * tickValue, dollars)
  {
  }

  /** When the guard holds, the fraction is positive and the divisor is
      positive, the target figures are strictly positive and the stop-loss
      figures are not negative. */
  lemma GuardedSigns(fraction: real, openingProfit: real, riskAmount: real,
                     tickIndex: real, contractSize: real)
    requires ValidInputs(openingProfit, riskAmount)
    requires fraction > 0.0
    requires tickIndex * contractSize > 0.0
    ensures var r := CalculateTicksAndPoints(fraction, openingProfit, riskAmount, tickIndex, contractSize);
      r.targetProfit > 0.0 && r.targetTicks > 0.0 && r.targetPoints > 0.0
      && r.stopLossTicks >= 0.0 && r.stopLossPoints >= 0.0
  {
  }

  /** A risk amount of 0 gives 0 stop-loss ticks and 0 stop-loss points,
      whatever the other inputs. */
  lemma ZeroRiskZeroStopLoss(fraction: real, openingProfit: real,
                             tickIndex: real, contractSize: real)
    requires tickIndex * contractSize != 0.0
    ensures var r := CalculateTicksAndPoints(fraction, openingProfit, 0.0, tickIndex, contractSize);
      r.stopLossTicks == 0.0 && r.stopLossPoints == 0.0
  {
  }
}
