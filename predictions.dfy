/**
 * The display rules of the predictions page: the confidence label and
 * colour, the insight icon, the trend badge of a prediction card, and the
 * monthly/yearly view switch. The fetched predictions are inputs.
 */
module Predictions {
  import opened Common

  /** `getConfidenceLabel` (the chat assistant has the same rule). */
  function ConfidenceLabel(c: real): (level: string)
    ensures level == "High" <==> c >= 0.8
    ensures level == "Medium" <==> 0.6 <= c < 0.8
    ensures level == "Low" <==> c < 0.6
  {
    if c >= 0.8 then "High" else if c >= 0.6 then "Medium" else "Low"
  }

  /** `getConfidenceColor`. */
  function ConfidenceColor(c: real): string
  {
    if c >= 0.8 then Green else if c >= 0.6 then Amber else Red
  }

  /** Colour and label use the same thresholds: green goes with High, amber
      with Medium and red with Low. */
  lemma ColorMatchesLabel(c: real)
    ensures ConfidenceColor(c) == Green <==> ConfidenceLabel(c) == "High"
    ensures ConfidenceColor(c) == Amber <==> ConfidenceLabel(c) == "Medium"
    ensures ConfidenceColor(c) == Red <==> ConfidenceLabel(c) == "Low"
  {
  }

  /** The position of a label from Low (0) to High (2). */
  function LabelRank(level: string): nat
  {
    if level == "High" then 2 else if level == "Medium" then 1 else 0
  }

  /** More confidence never gives a lower label. */
  lemma LabelMonotone(a: real, b: real)
    requires a <= b
    ensures LabelRank(ConfidenceLabel(a)) <= LabelRank(ConfidenceLabel(b))
  {
  }

  datatype Icon = AlertCircle | Info

  /** `renderInsightIcon`: only a warning gets the alert icon. */
  function InsightIcon(kind: string): (icon: Icon)
    ensures icon == AlertCircle <==> kind == "warning"
  {
    if kind == "warning" then AlertCircle else Info
  }

  /** The trend line of a prediction card: its direction and the magnitude
      it prints. */
  datatype Badge = Badge(positive: bool, magnitude: real)

  /** `trend && ...` in `renderPredictionCard`: no trend (null) and a zero
      trend show nothing; otherwise the sign picks the direction and the
      absolute value is shown. */
  function TrendBadge(trend: Option<real>): (b: Option<Badge>)
    ensures b.Some? <==> trend.Some? && trend.value != 0.0
    ensures b.Some? ==> (b.value.positive <==> trend.value > 0.0)
    ensures b.Some? ==>
      (b.value.magnitude > 0.0 && (b.value.magnitude == trend.value || b.value.magnitude == -trend.value))
  {
    if trend.None? || trend.value == 0.0 then None
    else Some(Badge(trend.value > 0.0, if trend.value < 0.0 then -trend.value else trend.value))
  }

  /** Opposite trends show the same magnitude in opposite directions. */
  lemma TrendBadgeSymmetric(t: real)
    requires t != 0.0
    ensures TrendBadge(Some(-t)) == Some(Badge(!TrendBadge(Some(t)).value.positive, TrendBadge(Some(t)).value.magnitude))
  {
  }

  datatype View = MonthlyView | YearlyView

  /** The view rendered for `activeView`: "monthly" picks the monthly
      renderer and any other value the yearly one. */
  function ViewFor(activeView: string): (v: View)
    ensures v == MonthlyView <==> activeView == "monthly"
  {
    if activeView == "monthly" then MonthlyView else YearlyView
  }
}
