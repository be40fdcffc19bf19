/** The text and the chart props of `src/components/KPICard.js`. */
module KpiCard {
  import opened Base
  import opened LineGraph

  /** The `trend` prop as `typeof` and the comparisons see it: not a number
      (absent, `null`, a string), a finite number, `NaN`, or an infinity.
      `NaN` and the infinities are numbers to `typeof`. */
  datatype Trend = NotNumber | Finite(value: real) | NaN | Infinity(positive: bool)

  /** `trend >= 0`, false for `NaN`. */
  predicate AtLeastZero(trend: Trend)
    requires !trend.NotNumber?
  {
    match trend
    case Finite(v) => v >= 0.0
    case NaN => false
    case Infinity(positive) => positive
  }

  /** `trend > 0`, false for `NaN`. */
  predicate AboveZero(trend: Trend)
    requires !trend.NotNumber?
  {
    match trend
    case Finite(v) => v > 0.0
    case NaN => false
    case Infinity(positive) => positive
  }

  /** The trend's colour class: green for a number at or above zero (+Infinity
      included), red for any other number (`NaN` and -Infinity included),
      gray when the trend is not a number. */
  function TrendColor(trend: Trend): (c: string)
    ensures c == "text-gray-500" <==> trend.NotNumber?
    ensures c == "text-green-600" <==> (trend.Finite? && trend.value >= 0.0) || trend == Infinity(true)
    ensures c == "text-red-600" <==> (trend.Finite? && trend.value < 0.0) || trend.NaN? || trend == Infinity(false)
  {
    if trend.NotNumber? then "text-gray-500"
    else if AtLeastZero(trend) then "text-green-600"
    else "text-red-600"
  }

  /** What `toFixed(1)` prints: the number with one decimal, or the word
      JavaScript prints for `NaN` and the infinities. */
  datatype TrendNumber = Fixed(fixed: FixedText) | Word(word: string)

  /** `toFixed(1)` of a number. */
  function ToFixedOne(trend: Trend): TrendNumber
    requires !trend.NotNumber?
  {
    match trend
    case Finite(v) => Fixed(FixedText(v, 1))
    case NaN => Word("NaN")
    case Infinity(positive) => Word(if positive then "Infinity" else "-Infinity")
  }

  /** The trend label: a sign, the number, then "%". */
  datatype TrendText = TrendText(prefix: string, number: TrendNumber, suffix: string)

  /** The trend label: "+" before strictly positive trends (+Infinity
      included), the number with one decimal, then "%"; nothing when the trend
      is not a number. */
  function TrendLabel(trend: Trend): (l: Option<TrendText>)
    ensures l.None? <==> trend.NotNumber?
    ensures l.Some? ==> l.value.suffix == "%"
    ensures l.Some? ==> (l.value.prefix == "+" <==> (trend.Finite? && trend.value > 0.0) || trend == Infinity(true))
    ensures l.Some? ==> (l.value.prefix == "" <==> (trend.Finite? && trend.value <= 0.0) || trend.NaN? || trend == Infinity(false))
    ensures trend.Finite? ==> l.value.number == Fixed(FixedText(trend.value, 1))
    ensures trend.NaN? ==> l.value.number == Word("NaN")
    ensures trend.Infinity? ==> l.value.number == Word(if trend.positive then "Infinity" else "-Infinity")
  {
    if trend.NotNumber? then None
    else Some(TrendText(if AboveZero(trend) then "+" else "", ToFixedOne(trend), "%"))
  }

  /** A "+" only ever appears on a green label, a red label carries no sign,
      the only unsigned green label is the flat trend's "0.0%", and `NaN`
      reads "NaN%" in red. */
  lemma LabelAgreesWithColor(trend: Trend)
    ensures TrendLabel(trend).Some? && TrendLabel(trend).value.prefix == "+" ==> TrendColor(trend) == "text-green-600"
    ensures TrendColor(trend) == "text-red-600" ==> TrendLabel(trend).value.prefix == ""
    ensures TrendColor(trend) == "text-green-600" && TrendLabel(trend).value.prefix == "" ==> trend == Finite(0.0)
    ensures trend == Finite(0.0) ==>
      TrendColor(trend) == "text-green-600" && TrendLabel(trend) == Some(TrendText("", Fixed(FixedText(0.0, 1)), "%"))
    ensures trend.NaN? ==>
      TrendColor(trend) == "text-red-600" && TrendLabel(trend) == Some(TrendText("", Word("NaN"), "%"))
  {
  }

  /** The headline value with the unit placed as `unitPosition` says: before it
      for "prefix", after it for "suffix", nowhere otherwise. The value is
      shown as it was passed. */
  datatype ValueLine = ValueLine(before: string, value: string, after: string)

  function ValueText(unit: string, unitPosition: string, value: string): (v: ValueLine)
    ensures v.value == value
    ensures unitPosition == "prefix" ==> v.before == unit
    ensures unitPosition != "prefix" ==> v.before == ""
    ensures unitPosition != "suffix" ==> v.after == ""
    ensures unitPosition == "suffix" ==> v.after == unit
  {
    ValueLine(if unitPosition == "prefix" then unit else "", value,
              if unitPosition == "suffix" then unit else "")
  }

  /** The card places its unit exactly as the chart's hover readout does. */
  lemma ValuePlacedAsTooltip(unit: string, unitPosition: string, value: string, v: real)
    ensures ValueText(unit, unitPosition, value).before == TooltipText(unit, unitPosition, v).prefix
    ensures ValueText(unit, unitPosition, value).after == TooltipText(unit, unitPosition, v).suffix
  {
  }

  /** The card's chart props; `None` marks a prop that was not given, for which
      the card's default applies. */
  datatype CardProps = CardProps(
    unit: string,
    unitPosition: string,
    trend: Trend,
    currentData: Option<seq<Option<real>>>,
    previousData: Option<seq<Option<real>>>,
    days: Option<seq<Option<string>>>,
    previousDays: Option<seq<Option<string>>>,
    timePeriod: Option<string>)

  /** The props the card hands to `LineGraph`: the arrays default to empty and
      the window to "30d"; everything else passes through unchanged. */
  function GraphProps(c: CardProps): Props
  {
    Props(Some(Coalesce(c.currentData, [])), Some(Coalesce(c.previousData, [])),
          Some(Coalesce(c.days, [])), Some(Coalesce(c.previousDays, [])),
          c.unit, Some(Coalesce(c.timePeriod, "30d")), c.unitPosition)
  }

  /** The card's defaults change nothing the chart draws: its frame size and
      its arrays are the ones the chart would pick for the card's own props. */
  lemma GraphPropsKeepChart(c: CardProps)
    ensures FrameSize(GraphProps(c).timePeriod) == FrameSize(c.timePeriod)
    ensures ArrayOrEmpty(GraphProps(c).currentData) == ArrayOrEmpty(c.currentData)
    ensures ArrayOrEmpty(GraphProps(c).previousData) == ArrayOrEmpty(c.previousData)
    ensures ArrayOrEmpty(GraphProps(c).days) == ArrayOrEmpty(c.days)
    ensures ArrayOrEmpty(GraphProps(c).previousDays) == ArrayOrEmpty(c.previousDays)
    ensures GraphProps(c).unit == c.unit && GraphProps(c).unitPosition == c.unitPosition
  {
  }
}
